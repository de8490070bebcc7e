/** Which event sequences the collector turns into a response, and which response, told by the events alone. */
module CollectorAccepts {
  import opened Base
  import opened Collector

  /** What the last start of block `i` announced. */
  function KindOf(events: seq<Event>, i: nat): Option<BlockStart>
    decreases |events|
  {
    if events == [] then None
    else
      var e := events[|events| - 1];
      if e.BlockStarted? && e.index == i then Some(e.kind) else KindOf(events[..|events| - 1], i)
  }

  /** Block `i` was stopped since it was last started. */
  predicate StoppedSince(events: seq<Event>, i: nat)
    decreases |events|
  {
    events != [] &&
    var e := events[|events| - 1];
    if e.BlockStarted? && e.index == i then false
    else e == BlockStopped(i) || StoppedSince(events[..|events| - 1], i)
  }

  /** The deltas sent for block `i` since it was last started. */
  function DeltasSince(events: seq<Event>, i: nat): seq<BlockDelta>
    decreases |events|
  {
    if events == [] then []
    else
      var e, front := events[|events| - 1], events[..|events| - 1];
      if e.BlockStarted? && e.index == i then []
      else if e.BlockChanged? && e.index == i then DeltasSince(front, i) + [e.delta]
      else DeltasSince(front, i)
  }

  /** What a delta speaks of. */
  datatype Field =
    | TextField | ThinkingField | SignatureField | EncryptedField | InputField | ResultField | QueryField
    | SearchStatusField | ActionField | WebStatusField | ImageStatusField | PromptField | ImageField

  function FieldOf(d: BlockDelta): Field {
    match d
    case TextDelta(_) => TextField
    case ThinkingText(_) => ThinkingField
    case ThinkingSignature(_) => SignatureField
    case ThinkingEncrypted(_) => EncryptedField
    case ToolUseInput(_) => InputField
    case ToolResultDelta(_) => ResultField
    case ToolSearchQuery(_) => QueryField
    case ToolSearchStatus(_) => SearchStatusField
    case WebSearchAction(_) => ActionField
    case WebSearchStatus(_) => WebStatusField
    case ImageStatus(_) => ImageStatusField
    case ImageRevisedPrompt(_) => PromptField
    case ImageResult(_) => ImageField
  }

  function Payload(d: BlockDelta): string {
    match d
    case ToolResultDelta(content) => if content.PlainText? then content.text else ""
    case WebSearchAction(action) => action
    case ImageResult(result) => result
    case _ => d.text
  }

  /** Everything said for a field, joined. */
  function Joined(ds: seq<BlockDelta>, field: Field): string
    decreases |ds|
  {
    if ds == [] then ""
    else Joined(ds[..|ds| - 1], field) + (if FieldOf(ds[|ds| - 1]) == field then Payload(ds[|ds| - 1]) else "")
  }

  /** The last thing said for a field. */
  function Latest(ds: seq<BlockDelta>, field: Field): Option<string>
    decreases |ds|
  {
    if ds == [] then None
    else if FieldOf(ds[|ds| - 1]) == field then Some(Payload(ds[|ds| - 1]))
    else Latest(ds[..|ds| - 1], field)
  }

  /** A field each delta replaces: the last one stands, or what the block was started with. */
  function Replaced(ds: seq<BlockDelta>, field: Field, start: Option<string>): Option<string> {
    if Latest(ds, field).Some? then Latest(ds, field) else start
  }

  /** A field each delta adds to; it stays absent while nothing is said. */
  function Grown(ds: seq<BlockDelta>, field: Field, start: Option<string>): Option<string> {
    if Latest(ds, field).None? then start else Some((if start.Some? then start.value else "") + Joined(ds, field))
  }

  /** Where the last structured result is. */
  function LastStructured(ds: seq<BlockDelta>): (r: Option<nat>)
    ensures r.Some? ==> r.value < |ds| && ds[r.value].ToolResultDelta? && ds[r.value].content.Structured?
    decreases |ds|
  {
    if ds == [] then None
    else if ds[|ds| - 1].ToolResultDelta? && ds[|ds| - 1].content.Structured? then Some(|ds| - 1)
    else LastStructured(ds[..|ds| - 1])
  }

  /** Structured content takes up text only while it is a JSON string. */
  function WithText(value: Json, text: string): ToolResultContent {
    Structured(if value.JString? then JString(value.text + text) else value)
  }

  /** The last structured result and the text after it, or the text added to what the block was started with. */
  function ResultTold(ds: seq<BlockDelta>, start: Option<ToolResultContent>): Option<ToolResultContent> {
    match LastStructured(ds)
    case Some(k) => Some(WithText(ds[k].content.value, Joined(ds[k + 1..], ResultField)))
    case None =>
      if Latest(ds, ResultField).None? then start
      else match start
        case None => Some(PlainText(Joined(ds, ResultField)))
        case Some(PlainText(text)) => Some(PlainText(text + Joined(ds, ResultField)))
        case Some(Structured(value)) => Some(WithText(value, Joined(ds, ResultField)))
  }

  /** The block a start and the deltas after it stand for; tool input that is no JSON stands for none. */
  function BlockOf(kind: BlockStart, ds: seq<BlockDelta>, parse: Parser): Option<ContentBlock> {
    match kind
    case StartText => Some(Text(Joined(ds, TextField)))
    case StartThinking(encrypted, id, provenance, redacted) =>
      Some(Thinking(Joined(ds, ThinkingField), Grown(ds, SignatureField, None),
                    Replaced(ds, EncryptedField, encrypted), id, provenance, redacted))
    case StartImage(source) => Some(Image(source))
    case StartToolUse(callId, name) =>
      (match parse(Joined(ds, InputField))
       case Some(input) => Some(ToolUse(callId, name, input))
       case None => None)
    case StartToolResult(toolUseId, isError, content) =>
      var told := ResultTold(ds, content);
      Some(ToolResult(toolUseId, if told.Some? then told.value else PlainText(""), isError))
    case StartToolSearch(call) =>
      Some(HostedToolSearch(ToolSearchCall(call.id, Replaced(ds, SearchStatusField, call.status),
                                           Grown(ds, QueryField, call.query))))
    case StartWebSearch(call) =>
      Some(HostedWebSearch(WebSearchCall(call.id, Replaced(ds, WebStatusField, call.status),
                                         Replaced(ds, ActionField, call.action))))
    case StartImageGeneration(call) =>
      Some(ImageGeneration(ImageCall(call.id, Replaced(ds, ImageStatusField, Some(call.status)).value,
                                     Grown(ds, PromptField, call.revisedPrompt),
                                     Replaced(ds, ImageField, call.result))))
  }

  /** The deltas a block of each kind takes; an image takes none. */
  predicate Takes(kind: BlockStart, delta: BlockDelta) {
    match kind
    case StartText => delta.TextDelta?
    case StartThinking(_, _, _, _) => delta.ThinkingText? || delta.ThinkingSignature? || delta.ThinkingEncrypted?
    case StartImage(_) => false
    case StartToolUse(_, _) => delta.ToolUseInput?
    case StartToolResult(_, _, _) => delta.ToolResultDelta?
    case StartToolSearch(_) => delta.ToolSearchQuery? || delta.ToolSearchStatus?
    case StartWebSearch(_) => delta.WebSearchAction? || delta.WebSearchStatus?
    case StartImageGeneration(_) => delta.ImageStatus? || delta.ImageRevisedPrompt? || delta.ImageResult?
  }

  /** After `events`, a delta fits the block it names, and only a started block is stopped. */
  predicate FitsAfter(events: seq<Event>, e: Event) {
    match e
    case BlockChanged(i, delta) => KindOf(events, i).Some? && Takes(KindOf(events, i).value, delta)
    case BlockStopped(i) => KindOf(events, i).Some?
    case _ => true
  }

  predicate Orderly(events: seq<Event>)
    decreases |events|
  {
    events != [] ==> Orderly(events[..|events| - 1]) && FitsAfter(events[..|events| - 1], events[|events| - 1])
  }

  /** The last event of a kind, if any. */
  function LastStarted(events: seq<Event>): (r: Option<Event>)
    ensures r.Some? ==> r.value.MessageStarted?
    decreases |events|
  {
    if events == [] then None
    else if events[|events| - 1].MessageStarted? then Some(events[|events| - 1])
    else LastStarted(events[..|events| - 1])
  }

  function LastDelta(events: seq<Event>): (r: Option<Event>)
    ensures r.Some? ==> r.value.MessageDelta?
    decreases |events|
  {
    if events == [] then None
    else if events[|events| - 1].MessageDelta? then Some(events[|events| - 1])
    else LastDelta(events[..|events| - 1])
  }

  /** Every block started is stopped again, and every tool call's input is JSON. */
  ghost predicate BlocksFinish(events: seq<Event>, parse: Parser) {
    forall i: nat :: KindOf(events, i).Some? ==> BlockFinishes(events, i, parse)
  }

  ghost predicate BlockFinishes(events: seq<Event>, i: nat, parse: Parser)
    requires KindOf(events, i).Some?
  {
    StoppedSince(events, i) && BlockOf(KindOf(events, i).value, DeltasSince(events, i), parse).Some?
  }

  ghost predicate Accepts(events: seq<Event>, parse: Parser) {
    Orderly(events) && MessageStopped in events && LastStarted(events).Some? && BlocksFinish(events, parse)
  }

  /** `indices` are the blocks ever started, in order. */
  ghost predicate Lists(indices: seq<nat>, events: seq<Event>) {
    && (forall j, k :: 0 <= j < k < |indices| ==> indices[j] < indices[k])
    && (forall j :: 0 <= j < |indices| ==> KindOf(events, indices[j]).Some?)
    && (forall i: nat :: KindOf(events, i).Some? ==> i in indices)
  }

  ghost predicate ContentTold(content: seq<ContentBlock>, events: seq<Event>, indices: seq<nat>, parse: Parser)
    requires Lists(indices, events)
  {
    && |content| == |indices|
    && forall j :: 0 <= j < |indices| ==>
         Some(content[j]) == BlockOf(KindOf(events, indices[j]).value, DeltasSince(events, indices[j]), parse)
  }

  // ---------------------------------------------------------------- a block follows its deltas

  /** What the collector holds for a block that was started as `kind` and got `ds`. */
  function PartialOf(kind: BlockStart, ds: seq<BlockDelta>): Partial {
    match kind
    case StartText => PText(Joined(ds, TextField))
    case StartThinking(encrypted, id, provenance, redacted) =>
      PThinking(Joined(ds, ThinkingField), Grown(ds, SignatureField, None), Replaced(ds, EncryptedField, encrypted), id,
                provenance, redacted)
    case StartImage(source) => PImage(source)
    case StartToolUse(callId, name) => PToolUse(callId, name, Joined(ds, InputField))
    case StartToolResult(toolUseId, isError, content) => PToolResult(toolUseId, ResultTold(ds, content), isError)
    case StartToolSearch(call) =>
      PToolSearch(ToolSearchCall(call.id, Replaced(ds, SearchStatusField, call.status),
                                 Grown(ds, QueryField, call.query)))
    case StartWebSearch(call) =>
      PWebSearch(WebSearchCall(call.id, Replaced(ds, WebStatusField, call.status),
                               Replaced(ds, ActionField, call.action)))
    case StartImageGeneration(call) =>
      PImageGeneration(ImageCall(call.id, Replaced(ds, ImageStatusField, Some(call.status)).value,
                                 Grown(ds, PromptField, call.revisedPrompt), Replaced(ds, ImageField, call.result)))
  }

  lemma {:induction false} FieldsOneMore(ds: seq<BlockDelta>, d: BlockDelta, field: Field)
    ensures Joined(ds + [d], field) == Joined(ds, field) + (if FieldOf(d) == field then Payload(d) else "")
    ensures Latest(ds + [d], field) == if FieldOf(d) == field then Some(Payload(d)) else Latest(ds, field)
  {
    assert (ds + [d])[..|ds|] == ds;
  }

  lemma {:induction false} NothingJoined(ds: seq<BlockDelta>, field: Field)
    requires Latest(ds, field).None?
    ensures Joined(ds, field) == ""
    decreases |ds|
  {
    if ds != [] {
      NothingJoined(ds[..|ds| - 1], field);
    }
  }

  lemma {:induction false} GrownOneMore(ds: seq<BlockDelta>, d: BlockDelta, field: Field, start: Option<string>)
    ensures Grown(ds + [d], field, start) ==
            if FieldOf(d) == field then Extended(Grown(ds, field, start), Payload(d)) else Grown(ds, field, start)
  {
    FieldsOneMore(ds, d, field);
    var base := if start.Some? then start.value else "";
    if FieldOf(d) == field {
      if Latest(ds, field).None? {
        NothingJoined(ds, field);
        assert "" + Payload(d) == Payload(d);
      } else {
        assert (base + Joined(ds, field)) + Payload(d) == base + (Joined(ds, field) + Payload(d));
      }
    } else {
      assert Joined(ds, field) + "" == Joined(ds, field);
    }
  }

  lemma {:induction false} ReplacedOneMore(ds: seq<BlockDelta>, d: BlockDelta, field: Field, start: Option<string>)
    ensures Replaced(ds + [d], field, start) ==
            if FieldOf(d) == field then Some(Payload(d)) else Replaced(ds, field, start)
  {
    FieldsOneMore(ds, d, field);
  }

  lemma {:induction false} StructuredLast(ds: seq<BlockDelta>, d: BlockDelta)
    requires d.ToolResultDelta? && d.content.Structured?
    ensures LastStructured(ds + [d]) == Some(|ds|) && Joined((ds + [d])[|ds| + 1..], ResultField) == ""
  {
    assert (ds + [d])[|ds| + 1..] == [];
  }

  lemma {:induction false} PlainAfter(ds: seq<BlockDelta>, d: BlockDelta)
    requires d.ToolResultDelta? && d.content.PlainText?
    ensures LastStructured(ds + [d]) == LastStructured(ds)
    ensures LastStructured(ds).Some? ==>
              var k := LastStructured(ds).value;
              && (ds + [d])[k] == ds[k]
              && Joined((ds + [d])[k + 1..], ResultField) == Joined(ds[k + 1..], ResultField) + d.content.text
  {
    assert (ds + [d])[..|ds|] == ds;
    if LastStructured(ds).Some? {
      var k := LastStructured(ds).value;
      assert (ds + [d])[k + 1..] == ds[k + 1..] + [d];
      FieldsOneMore(ds[k + 1..], d, ResultField);
    }
  }

  lemma {:induction false} TextJoins(value: Json, text: string, more: string)
    ensures MergeContent(Some(WithText(value, text)), PlainText(more)) == WithText(value, text + more)
  {
    if value.JString? {
      assert (value.text + text) + more == value.text + (text + more);
    }
  }

  lemma {:induction false} ResultOneMore(ds: seq<BlockDelta>, d: BlockDelta, start: Option<ToolResultContent>)
    requires d.ToolResultDelta?
    ensures ResultTold(ds + [d], start) == Some(MergeContent(ResultTold(ds, start), d.content))
  {
    if d.content.Structured? {
      StructuredLast(ds, d);
      var value := d.content.value;
      assert value.JString? ==> value.text + "" == value.text;
    } else {
      PlainAfter(ds, d);
      if LastStructured(ds).Some? {
        var k := LastStructured(ds).value;
        TextJoins(ds[k].content.value, Joined(ds[k + 1..], ResultField), d.content.text);
      } else {
        PlainOnly(ds, d, start);
      }
    }
  }

  lemma {:induction false} PlainOnly(ds: seq<BlockDelta>, d: BlockDelta, start: Option<ToolResultContent>)
    requires d.ToolResultDelta? && d.content.PlainText?
    requires LastStructured(ds).None? && LastStructured(ds + [d]).None?
    ensures ResultTold(ds + [d], start) == Some(MergeContent(ResultTold(ds, start), d.content))
  {
    var said, more := Joined(ds, ResultField), d.content.text;
    FieldsOneMore(ds, d, ResultField);
    if Latest(ds, ResultField).None? {
      NothingJoined(ds, ResultField);
      assert "" + more == more;
    }
    if start.Some? {
      var content := start.value;
      if content.PlainText? {
        Regroup(content.text, said, more);
      } else {
        TextJoins(content.value, said, more);
        assert content == WithText(content.value, "") by { NoTextJoins(content.value); }
      }
    }
  }

  lemma {:induction false} NoTextJoins(value: Json)
    ensures WithText(value, "") == Structured(value)
  {
    if value.JString? {
      assert value.text + "" == value.text;
    }
  }

  lemma {:induction false} PartialOneMore(kind: BlockStart, ds: seq<BlockDelta>, d: BlockDelta)
    requires Takes(kind, d)
    ensures ApplyDelta(PartialOf(kind, ds), d) == Ok(PartialOf(kind, ds + [d]))
  {
    match kind
    case StartText => FieldsOneMore(ds, d, TextField);
    case StartThinking(encrypted, _, _, _) =>
      FieldsOneMore(ds, d, ThinkingField);
      assert Joined(ds, ThinkingField) + "" == Joined(ds, ThinkingField);
      GrownOneMore(ds, d, SignatureField, None);
      ReplacedOneMore(ds, d, EncryptedField, encrypted);
    case StartImage(_) =>
    case StartToolUse(_, _) => FieldsOneMore(ds, d, InputField);
    case StartToolResult(_, _, content) => ResultOneMore(ds, d, content);
    case StartToolSearch(call) =>
      ReplacedOneMore(ds, d, SearchStatusField, call.status);
      GrownOneMore(ds, d, QueryField, call.query);
    case StartWebSearch(call) =>
      ReplacedOneMore(ds, d, WebStatusField, call.status);
      ReplacedOneMore(ds, d, ActionField, call.action);
    case StartImageGeneration(call) =>
      ReplacedOneMore(ds, d, ImageStatusField, Some(call.status));
      GrownOneMore(ds, d, PromptField, call.revisedPrompt);
      ReplacedOneMore(ds, d, ImageField, call.result);
  }

  lemma {:induction false} WrongKindRefused(kind: BlockStart, ds: seq<BlockDelta>, d: BlockDelta)
    requires !Takes(kind, d)
    ensures ApplyDelta(PartialOf(kind, ds), d).Err?
  {
  }

  lemma {:induction false} PartialBuilds(kind: BlockStart, ds: seq<BlockDelta>, parse: Parser)
    ensures match IntoBlock(PartialOf(kind, ds), parse)
            case Ok(block) => BlockOf(kind, ds, parse) == Some(block)
            case Err(_) => BlockOf(kind, ds, parse).None?
  {
  }

  // ---------------------------------------------------------------- the collector follows the events

  ghost predicate BlockTold(b: Builder, events: seq<Event>, i: nat) {
    match KindOf(events, i)
    case None => i !in b.blocks
    case Some(kind) =>
      i in b.blocks &&
      b.blocks[i] == StreamingBlock(PartialOf(kind, DeltasSince(events, i)), StoppedSince(events, i))
  }

  ghost predicate HeadTold(b: Builder, events: seq<Event>) {
    && (b.stopped <==> MessageStopped in events)
    && (match LastStarted(events)
        case None => b.id.None? && b.model.None? && b.role.None?
        case Some(e) => b.id == Some(e.id) && b.model == Some(e.model) && b.role == Some(e.role))
    && (match LastDelta(events)
        case None => b.stopReason.None? && b.usage.None?
        case Some(e) => b.stopReason == e.stopReason && b.usage == e.usage)
  }

  ghost predicate Told(b: Builder, events: seq<Event>) {
    HeadTold(b, events) && forall i: nat :: BlockTold(b, events, i)
  }

  lemma {:induction false} DeltaFits(kind: BlockStart, ds: seq<BlockDelta>, d: BlockDelta)
    ensures ApplyDelta(PartialOf(kind, ds), d).Ok? <==> Takes(kind, d)
    ensures Takes(kind, d) ==> ApplyDelta(PartialOf(kind, ds), d) == Ok(PartialOf(kind, ds + [d]))
  {
    if Takes(kind, d) {
      PartialOneMore(kind, ds, d);
    } else {
      WrongKindRefused(kind, ds, d);
    }
  }

  lemma {:induction false} StartIsEmpty(kind: BlockStart)
    ensures Begin(kind) == PartialOf(kind, [])
  {
  }

  lemma {:induction false} StepFits(b: Builder, events: seq<Event>, e: Event)
    requires Told(b, events)
    ensures Apply(b, e).Ok? <==> FitsAfter(events, e)
  {
    if e.BlockChanged? || e.BlockStopped? {
      assert BlockTold(b, events, e.index);
      if e.BlockChanged? && e.index in b.blocks {
        DeltaFits(KindOf(events, e.index).value, DeltasSince(events, e.index), e.delta);
      }
    }
  }

  lemma {:induction false} StepTellsBlock(b: Builder, events: seq<Event>, e: Event, i: nat)
    requires BlockTold(b, events, i) && Apply(b, e).Ok?
    ensures BlockTold(Apply(b, e).value, events + [e], i)
  {
    assert (events + [e])[..|events|] == events;
    if e.BlockStarted? && e.index == i {
      StartIsEmpty(e.kind);
    } else if e.BlockChanged? && e.index == i {
      DeltaFits(KindOf(events, i).value, DeltasSince(events, i), e.delta);
    }
  }

  lemma {:induction false} StepTellsHead(b: Builder, events: seq<Event>, e: Event)
    requires HeadTold(b, events) && Apply(b, e).Ok?
    ensures HeadTold(Apply(b, e).value, events + [e])
  {
    assert (events + [e])[..|events|] == events;
  }

  /** Nothing is rejected exactly when the events are orderly, and then the collector stands where they say. */
  lemma {:induction false} ApplyAllTells(events: seq<Event>)
    ensures ApplyAll(EMPTY, events).Ok? <==> Orderly(events)
    ensures ApplyAll(EMPTY, events).Ok? ==> Told(ApplyAll(EMPTY, events).value, events)
    decreases |events|
  {
    if events != [] {
      var front, e := events[..|events| - 1], events[|events| - 1];
      ApplyAllTells(front);
      if ApplyAll(EMPTY, front).Ok? {
        var b := ApplyAll(EMPTY, front).value;
        StepFits(b, front, e);
        if Apply(b, e).Ok? {
          assert events == front + [e];
          StepTellsHead(b, front, e);
          forall i: nat ensures BlockTold(Apply(b, e).value, events, i) {
            StepTellsBlock(b, front, e, i);
          }
        }
      }
    }
  }

  ghost predicate Builds(block: StreamingBlock, parse: Parser) {
    block.complete && IntoBlock(block.partial, parse).Ok?
  }

  lemma {:induction false} ContentsBuild(blocks: map<nat, StreamingBlock>, parse: Parser, n: nat)
    ensures Contents(blocks, parse, n).Ok? <==> forall k :: 0 <= k < n && k in blocks ==> Builds(blocks[k], parse)
  {
    if n > 0 {
      ContentsBuild(blocks, parse, n - 1);
      assert n - 1 in blocks ==>
        (Contents(blocks, parse, n).Ok? <==> Contents(blocks, parse, n - 1).Ok? && Builds(blocks[n - 1], parse));
    }
  }

  lemma {:induction false} BuildsWhenFinished(b: Builder, events: seq<Event>, i: nat, parse: Parser)
    requires BlockTold(b, events, i) && i in b.blocks
    ensures Builds(b.blocks[i], parse) <==> BlockFinishes(events, i, parse)
  {
    PartialBuilds(KindOf(events, i).value, DeltasSince(events, i), parse);
  }

  lemma {:induction false} AllBuild(b: Builder, events: seq<Event>, parse: Parser)
    requires Told(b, events)
    ensures Contents(b.blocks, parse, Limit(b.blocks.Keys)).Ok? <==> BlocksFinish(events, parse)
  {
    var n := Limit(b.blocks.Keys);
    ContentsBuild(b.blocks, parse, n);
    forall i: nat
      ensures i in b.blocks <==> KindOf(events, i).Some?
      ensures i in b.blocks ==> i < n && (Builds(b.blocks[i], parse) <==> BlockFinishes(events, i, parse))
    {
      assert BlockTold(b, events, i);
      if i in b.blocks {
        assert i in b.blocks.Keys;
        BuildsWhenFinished(b, events, i, parse);
      }
    }
  }

  /** The indices in use below `n`, in order. */
  ghost function IndicesIn(blocks: map<nat, StreamingBlock>, n: nat): (r: seq<nat>)
    ensures forall j :: 0 <= j < |r| ==> r[j] < n && r[j] in blocks
    ensures forall j, k :: 0 <= j < k < |r| ==> r[j] < r[k]
  {
    if n == 0 then [] else IndicesIn(blocks, n - 1) + (if n - 1 in blocks then [n - 1] else [])
  }

  lemma {:induction false} IndicesFind(blocks: map<nat, StreamingBlock>, n: nat, i: nat)
    requires i < n && i in blocks
    ensures i in IndicesIn(blocks, n)
  {
    if i < n - 1 {
      IndicesFind(blocks, n - 1, i);
    }
  }

  lemma {:induction false} ContentsAt(blocks: map<nat, StreamingBlock>, parse: Parser, n: nat, j: nat)
    requires Contents(blocks, parse, n).Ok? && j < |IndicesIn(blocks, n)|
    ensures |Contents(blocks, parse, n).value| == |IndicesIn(blocks, n)|
    ensures IntoBlock(blocks[IndicesIn(blocks, n)[j]].partial, parse) == Ok(Contents(blocks, parse, n).value[j])
  {
    ContentsCount(blocks, parse, n);
    ContentsCount(blocks, parse, n - 1);
    if j < |IndicesIn(blocks, n - 1)| {
      ContentsAt(blocks, parse, n - 1, j);
    }
  }

  lemma {:induction false} ContentsCount(blocks: map<nat, StreamingBlock>, parse: Parser, n: nat)
    requires Contents(blocks, parse, n).Ok?
    ensures |Contents(blocks, parse, n).value| == |IndicesIn(blocks, n)|
  {
    if n > 0 {
      ContentsCount(blocks, parse, n - 1);
    }
  }

  lemma {:induction false} AllTold(b: Builder, events: seq<Event>, parse: Parser)
    requires Told(b, events) && Contents(b.blocks, parse, Limit(b.blocks.Keys)).Ok?
    ensures var indices := IndicesIn(b.blocks, Limit(b.blocks.Keys));
            Lists(indices, events) &&
            ContentTold(Contents(b.blocks, parse, Limit(b.blocks.Keys)).value, events, indices, parse)
  {
    var n := Limit(b.blocks.Keys);
    var indices := IndicesIn(b.blocks, n);
    forall i: nat
      ensures i in b.blocks <==> KindOf(events, i).Some?
      ensures KindOf(events, i).Some? ==> i in indices
    {
      assert BlockTold(b, events, i);
      if i in b.blocks {
        assert i in b.blocks.Keys;
        IndicesFind(b.blocks, n, i);
      }
    }
    ContentsCount(b.blocks, parse, n);
    forall j | 0 <= j < |indices|
      ensures Some(Contents(b.blocks, parse, n).value[j])
              == BlockOf(KindOf(events, indices[j]).value, DeltasSince(events, indices[j]), parse)
    {
      ContentsAt(b.blocks, parse, n, j);
      assert BlockTold(b, events, indices[j]);
      PartialBuilds(KindOf(events, indices[j]).value, DeltasSince(events, indices[j]), parse);
    }
  }

  /** The collector answers exactly the event sequences that `Accepts` describes. */
  lemma {:induction false} CollectsExactlyWhen(events: seq<Event>, parse: Parser)
    ensures Collected(events, parse).Ok? <==> Accepts(events, parse)
  {
    ApplyAllTells(events);
    if Orderly(events) {
      AllBuild(ApplyAll(EMPTY, events).value, events, parse);
    }
  }

  lemma {:induction false} FirstFailure(blocks: map<nat, StreamingBlock>, parse: Parser, n: nat, i: nat)
    requires i < n && i in blocks && !Builds(blocks[i], parse)
    requires forall k :: 0 <= k < i && k in blocks ==> Builds(blocks[k], parse)
    ensures Contents(blocks, parse, n) == Err(if blocks[i].complete then BadJson else Incomplete(i))
  {
    ContentsBuild(blocks, parse, i);
    assert Contents(blocks, parse, i + 1) == Err(if blocks[i].complete then BadJson else Incomplete(i));
    ContentsError(blocks, parse, i + 1, n);
  }

  /**
   Which error it is: a stream that is orderly but not stopped ended early, one that never started has no id, and
   otherwise the first block that is unfinished or whose input is no JSON is to blame.
   */
  lemma {:induction false} RefusesWith(events: seq<Event>, parse: Parser, i: nat)
    requires Orderly(events)
    ensures MessageStopped !in events ==> Collected(events, parse) == Err(EndedEarly)
    ensures MessageStopped in events && LastStarted(events).None? ==> Collected(events, parse) == Err(MissingId)
    ensures MessageStopped in events && LastStarted(events).Some? && FirstUnfinished(events, parse, i) ==>
              Collected(events, parse) == Err(if StoppedSince(events, i) then BadJson else Incomplete(i))
  {
    ApplyAllTells(events);
    if MessageStopped in events && LastStarted(events).Some? && FirstUnfinished(events, parse, i) {
      var b := ApplyAll(EMPTY, events).value;
      assert BlockTold(b, events, i);
      BuildsWhenFinished(b, events, i, parse);
      forall k | 0 <= k < i && k in b.blocks ensures Builds(b.blocks[k], parse) {
        assert BlockTold(b, events, k);
        BuildsWhenFinished(b, events, k, parse);
      }
      assert i in b.blocks.Keys;
      FirstFailure(b.blocks, parse, Limit(b.blocks.Keys), i);
    }
  }

  ghost predicate FirstUnfinished(events: seq<Event>, parse: Parser, i: nat) {
    && KindOf(events, i).Some? && !BlockFinishes(events, i, parse)
    && forall k: nat :: k < i && KindOf(events, k).Some? ==> BlockFinishes(events, k, parse)
  }

  /**
   Of an accepted sequence the heading is the last message start's, the stop reason and usage the last message
   delta's, and the content has one block for each index ever started, in index order, made of what was said for it
   since it was last started.
   */
  lemma {:induction false} CollectedIsTold(events: seq<Event>, parse: Parser)
    requires Accepts(events, parse)
    ensures Collected(events, parse).Ok?
    ensures var r, start := Collected(events, parse).value, LastStarted(events).value;
            && r.id == start.id && r.model == start.model && r.role == start.role
            && (match LastDelta(events)
                case None => r.stopReason.None? && r.usage.None?
                case Some(e) => r.stopReason == e.stopReason && r.usage == e.usage)
            && exists indices :: Lists(indices, events) && ContentTold(r.content, events, indices, parse)
  {
    CollectsExactlyWhen(events, parse);
    ApplyAllTells(events);
    AllTold(ApplyAll(EMPTY, events).value, events, parse);
  }
}
