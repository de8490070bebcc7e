/**
 Turning a streamed chat completion into provider events.

 The wire carries flat deltas with no notion of a block opening or closing. The
 class opens a block on first sight of a delta for it and closes them all at the
 end. `Wire` is the flat reading of a chunk, `Promised` the response a stream of
 chunks stands for, and `StreamCollectsAsPromised` says the collector rebuilds it.
 */
module ChatStream {
  import opened Base
  import opened Frames
  import opened Collector

  datatype FunctionDelta = FunctionDelta(name: Option<string>, arguments: Option<string>)
  datatype ToolCallDelta = ToolCallDelta(index: nat, id: Option<string>, call: Option<FunctionDelta>)
  datatype Delta = Delta(content: Option<string>, reasoningContent: Option<string>, reasoning: Option<string>,
                         toolCalls: seq<ToolCallDelta>)
  datatype Choice = Choice(delta: Delta, finishReason: Option<string>)
  datatype ChatUsage = ChatUsage(promptTokens: Option<nat>, completionTokens: Option<nat>, totalTokens: Option<nat>,
                                 promptDetails: Option<Option<nat>>, completionDetails: Option<Option<nat>>)
  datatype Chunk = Chunk(id: Option<string>, model: Option<string>, choices: seq<Choice>, usage: Option<ChatUsage>)

  /** What the request fixed: who answers, and the model asked for. */
  datatype Request = Request(provider: string, model: string) {
    function Origin(): Provenance { Provenance(provider, model, "open_ai_encrypted") }
  }

  function OrElse<T>(o: Option<T>, default: T): T {
    if o.Some? then o.value else default
  }

  function TokenUsageOf(u: ChatUsage): TokenUsage {
    TokenUsage(u.promptTokens, u.completionTokens, u.totalTokens, OrElse(u.promptDetails, None), None,
               OrElse(u.completionDetails, None), None, None)
  }

  /** Two spellings of the same field: the first wins when present, even when it is empty. */
  function ReasoningText(d: Delta): string {
    if d.reasoningContent.Some? then d.reasoningContent.value else OrElse(d.reasoning, "")
  }

  function NameOf(c: ToolCallDelta): string {
    if c.call.Some? then OrElse(c.call.value.name, "") else ""
  }

  function ArgumentsOf(c: ToolCallDelta): string {
    if c.call.Some? then OrElse(c.call.value.arguments, "") else ""
  }

  function Decimal(n: nat): string {
    if n < 10 then ["0123456789"[n]] else Decimal(n / 10) + ["0123456789"[n % 10]]
  }

  // ---------------------------------------------------------------- the flat reading

  datatype Wire =
    | Reasoning(text: string)
    | Words(text: string)
    | Call(number: nat, id: Option<string>, name: string, arguments: string)
    | Ended(reason: string)
    | Spent(usage: TokenUsage)

  function CallWire(c: ToolCallDelta): Wire {
    Call(c.index, c.id, NameOf(c), ArgumentsOf(c))
  }

  function CallWires(calls: seq<ToolCallDelta>): (r: seq<Wire>)
    ensures |r| == |calls|
  {
    seq(|calls|, i requires 0 <= i < |calls| => CallWire(calls[i]))
  }

  function WiresOfChoice(c: Choice): seq<Wire> {
    (if ReasoningText(c.delta) == "" then [] else [Reasoning(ReasoningText(c.delta))])
    + (if OrElse(c.delta.content, "") == "" then [] else [Words(c.delta.content.value)])
    + CallWires(c.delta.toolCalls)
    + (if c.finishReason.None? then [] else [Ended(c.finishReason.value)])
  }

  function WiresOfChoices(cs: seq<Choice>): seq<Wire>
    decreases |cs|
  {
    if cs == [] then [] else WiresOfChoices(cs[..|cs| - 1]) + WiresOfChoice(cs[|cs| - 1])
  }

  function WiresOfChunk(c: Chunk): seq<Wire> {
    (if c.usage.None? then [] else [Spent(TokenUsageOf(c.usage.value))]) + WiresOfChoices(c.choices)
  }

  function WiresOf(chunks: seq<Chunk>): seq<Wire>
    decreases |chunks|
  {
    if chunks == [] then [] else WiresOf(chunks[..|chunks| - 1]) + WiresOfChunk(chunks[|chunks| - 1])
  }

  // ---------------------------------------------------------------- what a stream stands for

  /** The block a delta belongs to. */
  datatype Key = KReasoning | KWords | KCall(number: nat)

  function KeyOf(w: Wire): Option<Key> {
    match w
    case Reasoning(_) => Some(KReasoning)
    case Words(_) => Some(KWords)
    case Call(number, _, _, _) => Some(KCall(number))
    case _ => None
  }

  function TextOf(w: Wire): string {
    match w
    case Reasoning(text) => text
    case Words(text) => text
    case Call(_, _, _, arguments) => arguments
    case _ => ""
  }

  /** Everything the stream said for one block, in order. */
  function Gathered(ws: seq<Wire>, key: Key): string
    decreases |ws|
  {
    if ws == [] then ""
    else Gathered(ws[..|ws| - 1], key) + (if KeyOf(ws[|ws| - 1]) == Some(key) then TextOf(ws[|ws| - 1]) else "")
  }

  /** The first delta seen for each block, in order of first sight. */
  function Openings(ws: seq<Wire>): (r: seq<Wire>)
    ensures forall i :: 0 <= i < |r| ==> KeyOf(r[i]).Some?
    decreases |ws|
  {
    if ws == [] then []
    else
      var before, w := Openings(ws[..|ws| - 1]), ws[|ws| - 1];
      if KeyOf(w).Some? && PlaceOf(before, KeyOf(w).value).None? then before + [w] else before
  }

  function PlaceOf(os: seq<Wire>, key: Key): (r: Option<nat>)
    ensures r.Some? ==> r.value < |os| && KeyOf(os[r.value]) == Some(key)
    ensures r.None? ==> forall i :: 0 <= i < |os| ==> KeyOf(os[i]) != Some(key)
    decreases |os|
  {
    if os == [] then None
    else
      var before := PlaceOf(os[..|os| - 1], key);
      if before.Some? then before
      else if KeyOf(os[|os| - 1]) == Some(key) then Some(|os| - 1)
      else None
  }

  function LastReason(ws: seq<Wire>): Option<string>
    decreases |ws|
  {
    if ws == [] then None
    else if ws[|ws| - 1].Ended? then Some(ws[|ws| - 1].reason)
    else LastReason(ws[..|ws| - 1])
  }

  function LastUsage(ws: seq<Wire>): Option<TokenUsage>
    decreases |ws|
  {
    if ws == [] then None
    else if ws[|ws| - 1].Spent? then Some(ws[|ws| - 1].usage)
    else LastUsage(ws[..|ws| - 1])
  }

  /** The block at position `i`, opened by `w` and made of `text`; a tool call needs its arguments to be JSON. */
  function PromisedBlock(w: Wire, i: nat, text: string, q: Request, parse: Parser): Result<ContentBlock, StreamError>
    requires KeyOf(w).Some?
  {
    match w
    case Reasoning(_) => Ok(Thinking(text, None, None, None, Some(q.Origin()), false))
    case Words(_) => Ok(Text(text))
    case Call(_, id, name, _) =>
      match parse(text)
      case Some(input) => Ok(ToolUse(OrElse(id, "call_" + Decimal(i)), name, input))
      case None => Err(BadJson)
  }

  /** A block in the making: the delta that opened it, and everything said for it. */
  datatype Draft = Draft(opening: Wire, text: string)

  /** The blocks of a stream, in order of first sight. */
  function Drafts(ws: seq<Wire>): (r: seq<Draft>)
    ensures |r| == |Openings(ws)|
    ensures forall i :: 0 <= i < |r| ==> r[i] == Draft(Openings(ws)[i], Gathered(ws, KeyOf(Openings(ws)[i]).value))
    ensures Opened(r)
  {
    seq(|Openings(ws)|, i requires 0 <= i < |Openings(ws)| =>
      Draft(Openings(ws)[i], Gathered(ws, KeyOf(Openings(ws)[i]).value)))
  }

  ghost predicate Opened(drafts: seq<Draft>) {
    forall i :: 0 <= i < |drafts| ==> KeyOf(drafts[i].opening).Some?
  }

  function PromisedAt(drafts: seq<Draft>, i: nat, q: Request, parse: Parser): Result<ContentBlock, StreamError>
    requires i < |drafts| && KeyOf(drafts[i].opening).Some?
  {
    PromisedBlock(drafts[i].opening, i, drafts[i].text, q, parse)
  }

  ghost predicate Readable(drafts: seq<Draft>, q: Request, parse: Parser)
    requires Opened(drafts)
  {
    forall i :: 0 <= i < |drafts| ==> PromisedAt(drafts, i, q, parse).Ok?
  }

  ghost function PromisedContent(drafts: seq<Draft>, q: Request, parse: Parser): (r: seq<ContentBlock>)
    requires Opened(drafts) && Readable(drafts, q, parse)
    ensures |r| == |drafts| && forall i :: 0 <= i < |r| ==> Ok(r[i]) == PromisedAt(drafts, i, q, parse)
  {
    seq(|drafts|, i requires 0 <= i < |drafts| => PromisedAt(drafts, i, q, parse).value)
  }

  /** The response a sequence of chunks stands for; an error only when some tool call's arguments are not JSON. */
  ghost function Promised(chunks: seq<Chunk>, q: Request, parse: Parser): (r: Result<Response, StreamError>) {
    var ws := WiresOf(chunks);
    if !Readable(Drafts(ws), q, parse) then Err(BadJson)
    else
      Ok(Response(
           if chunks == [] then "" else OrElse(chunks[0].id, ""),
           if chunks == [] then q.model else OrElse(chunks[0].model, q.model),
           Assistant,
           PromisedContent(Drafts(ws), q, parse),
           LastReason(ws), LastUsage(ws)))
  }

  // ---------------------------------------------------------------- emitting events

  datatype Decoder = Decoder(started: bool, finished: bool, nextIndex: nat, textIndex: Option<nat>,
                             reasoningIndex: Option<nat>, toolIndices: map<nat, nat>, open: seq<nat>,
                             stopReason: Option<string>, usage: Option<TokenUsage>) {
    function Lookup(key: Key): Option<nat> {
      match key
      case KReasoning => reasoningIndex
      case KWords => textIndex
      case KCall(number) => if number in toolIndices then Some(toolIndices[number]) else None
    }

    function Allocated(key: Key): Decoder {
      var d := this.(nextIndex := nextIndex + 1, open := open + [nextIndex]);
      match key
      case KReasoning => d.(reasoningIndex := Some(nextIndex))
      case KWords => d.(textIndex := Some(nextIndex))
      case KCall(number) => d.(toolIndices := toolIndices[number := nextIndex])
    }
  }

  const IDLE := Decoder(false, false, 0, None, None, map[], [], None, None)

  function StartOf(w: Wire, index: nat, q: Request): BlockStart
    requires KeyOf(w).Some?
  {
    match w
    case Reasoning(_) => StartThinking(None, None, Some(q.Origin()), false)
    case Words(_) => StartText
    case Call(_, id, name, _) => StartToolUse(OrElse(id, "call_" + Decimal(index)), name)
  }

  function ChangeOf(w: Wire): BlockDelta
    requires KeyOf(w).Some?
  {
    match w
    case Reasoning(text) => ThinkingText(text)
    case Words(text) => TextDelta(text)
    case Call(_, _, _, arguments) => ToolUseInput(arguments)
  }

  function Changed(index: nat, w: Wire): seq<Event>
    requires KeyOf(w).Some?
  {
    if TextOf(w) == "" then [] else [BlockChanged(index, ChangeOf(w))]
  }

  /** One flat delta: its block is opened on first sight. */
  function Emit(d: Decoder, w: Wire, q: Request): (r: (Decoder, seq<Event>)) {
    match KeyOf(w)
    case None => (if w.Ended? then d.(stopReason := Some(w.reason)) else d.(usage := Some(w.usage)), [])
    case Some(key) =>
      match d.Lookup(key)
      case Some(index) => (d, Changed(index, w))
      case None => (d.Allocated(key), [BlockStarted(d.nextIndex, StartOf(w, d.nextIndex, q))] + Changed(d.nextIndex, w))
  }

  function EmitAll(d: Decoder, ws: seq<Wire>, q: Request): (r: (Decoder, seq<Event>))
    decreases |ws|
  {
    if ws == [] then (d, [])
    else
      var (d1, before) := EmitAll(d, ws[..|ws| - 1], q);
      var (d2, events) := Emit(d1, ws[|ws| - 1], q);
      (d2, before + events)
  }

  lemma {:induction false} EmitAllSnoc(d: Decoder, ws: seq<Wire>, w: Wire, q: Request)
    ensures var (d1, before) := EmitAll(d, ws, q);
            var (d2, events) := Emit(d1, w, q);
            EmitAll(d, ws + [w], q) == (d2, before + events)
  {
    assert (ws + [w])[..|ws|] == ws;
  }

  lemma {:induction false} EmitAllConcat(d: Decoder, xs: seq<Wire>, ys: seq<Wire>, q: Request)
    ensures var (d1, before) := EmitAll(d, xs, q);
            var (d2, after) := EmitAll(d1, ys, q);
            EmitAll(d, xs + ys, q) == (d2, before + after)
    decreases |ys|
  {
    var (d1, before) := EmitAll(d, xs, q);
    if ys == [] {
      assert xs + ys == xs && before + [] == before;
    } else {
      var front, w := ys[..|ys| - 1], ys[|ys| - 1];
      var (d2, middle) := EmitAll(d1, front, q);
      var (d3, last) := Emit(d2, w, q);
      assert EmitAll(d, xs + front, q) == (d2, before + middle) by { EmitAllConcat(d, xs, front, q); }
      assert EmitAll(d, xs + ys, q) == (d3, (before + middle) + last) by {
        assert ys == front + [w];
        Regroup(xs, front, [w]);
        EmitAllSnoc(d, xs + front, w, q);
      }
      assert EmitAll(d1, ys, q) == (d3, middle + last) by {
        assert ys == front + [w];
        EmitAllSnoc(d1, front, w, q);
      }
      Regroup(before, middle, last);
    }
  }

  function Accept(d: Decoder, c: Chunk, q: Request): (r: (Decoder, seq<Event>)) {
    if d.finished then (d, [])
    else
      var start := if d.started then [] else [MessageStarted(OrElse(c.id, ""), OrElse(c.model, q.model), Assistant)];
      var (d', events) := EmitAll(d.(started := true), WiresOfChunk(c), q);
      (d', start + events)
  }

  function Stops(open: seq<nat>): (r: seq<Event>)
    ensures |r| == |open|
  {
    seq(|open|, i requires 0 <= i < |open| => BlockStopped(open[i]))
  }

  /** The events that close a response, once. */
  function Close(d: Decoder, q: Request): (r: (Decoder, seq<Event>)) {
    if d.finished then (d, [])
    else
      (d.(started := true, finished := true, open := [], stopReason := None, usage := None),
       (if d.started then [] else [MessageStarted("", q.model, Assistant)])
       + Stops(d.open) + [MessageDelta(d.stopReason, d.usage), MessageStopped])
  }

  // ---------------------------------------------------------------- decoder and collector in step

  /** The received form of the block at position `i` so far. */
  function Building(w: Wire, i: nat, text: string, q: Request): Partial
    requires KeyOf(w).Some?
  {
    match w
    case Reasoning(_) => PThinking(text, None, None, None, Some(q.Origin()), false)
    case Words(_) => PText(text)
    case Call(_, id, name, _) => PToolUse(OrElse(id, "call_" + Decimal(i)), name, text)
  }

  /** The collector holds exactly the drafts, the first `closed` of them complete. */
  ghost predicate BlocksMatch(blocks: map<nat, StreamingBlock>, drafts: seq<Draft>, q: Request, closed: nat)
    requires Opened(drafts)
  {
    && (forall k :: k in blocks <==> 0 <= k < |drafts|)
    && (forall i :: 0 <= i < |drafts| ==>
          blocks[i] == StreamingBlock(Building(drafts[i].opening, i, drafts[i].text, q), i < closed))
  }

  /** The indices handed out so far, in order. */
  function UpTo(n: nat): (r: seq<nat>)
    ensures |r| == n
  {
    if n == 0 then [] else UpTo(n - 1) + [n - 1]
  }

  /** The decoder knows the block of `key` by its place among the openings. */
  ghost predicate FoundAt(d: Decoder, os: seq<Wire>, key: Key) {
    d.Lookup(key) == PlaceOf(os, key)
  }

  ghost predicate IndicesMatch(d: Decoder, os: seq<Wire>) {
    && d.nextIndex == |os|
    && (forall key :: FoundAt(d, os, key))
    && d.open == UpTo(|os|)
  }

  ghost predicate InStep(d: Decoder, b: Builder, ws: seq<Wire>, q: Request) {
    && IndicesMatch(d, Openings(ws))
    && BlocksMatch(b.blocks, Drafts(ws), q, 0)
    && d.stopReason == LastReason(ws) && d.usage == LastUsage(ws)
  }

  lemma {:induction false} PlaceOfAppend(os: seq<Wire>, w: Wire, key: Key)
    ensures PlaceOf(os + [w], key) ==
              if PlaceOf(os, key).Some? then PlaceOf(os, key)
              else if KeyOf(w) == Some(key) then Some(|os|) else None
  {
    assert (os + [w])[..|os|] == os;
  }

  lemma {:induction false} OpeningsAppend(ws: seq<Wire>, w: Wire)
    ensures Openings(ws + [w]) ==
              if KeyOf(w).Some? && PlaceOf(Openings(ws), KeyOf(w).value).None? then Openings(ws) + [w] else Openings(ws)
  {
    assert (ws + [w])[..|ws|] == ws;
  }

  lemma {:induction false} GatheredAppend(ws: seq<Wire>, w: Wire, key: Key)
    ensures Gathered(ws + [w], key) == Gathered(ws, key) + (if KeyOf(w) == Some(key) then TextOf(w) else "")
  {
    assert (ws + [w])[..|ws|] == ws;
  }

  lemma {:induction false} LastsAppend(ws: seq<Wire>, w: Wire)
    ensures LastReason(ws + [w]) == if w.Ended? then Some(w.reason) else LastReason(ws)
    ensures LastUsage(ws + [w]) == if w.Spent? then Some(w.usage) else LastUsage(ws)
  {
    assert (ws + [w])[..|ws|] == ws;
  }

  /** Each block has one opening. */
  lemma {:induction false} OpeningsDistinct(ws: seq<Wire>, i: nat)
    requires i < |Openings(ws)|
    ensures PlaceOf(Openings(ws), KeyOf(Openings(ws)[i]).value) == Some(i)
    decreases |ws|
  {
    var front, w := ws[..|ws| - 1], ws[|ws| - 1];
    assert ws == front + [w];
    OpeningsAppend(front, w);
    var before := Openings(front);
    if i < |before| {
      OpeningsDistinct(front, i);
    }
    PlaceOfAppend(before, w, KeyOf(Openings(ws)[i]).value);
  }

  lemma {:induction false} UnseenIsEmpty(ws: seq<Wire>, key: Key)
    requires PlaceOf(Openings(ws), key).None?
    ensures Gathered(ws, key) == ""
    decreases |ws|
  {
    if ws != [] {
      var front, w := ws[..|ws| - 1], ws[|ws| - 1];
      assert ws == front + [w];
      OpeningsAppend(front, w);
      PlaceOfAppend(Openings(front), w, key);
      UnseenIsEmpty(front, key);
    }
  }

  lemma {:induction false} ApplyChanged(b: Builder, i: nat, w: Wire, o: Wire, text: string, q: Request)
    requires KeyOf(w).Some? && KeyOf(o) == KeyOf(w)
    requires i in b.blocks && b.blocks[i] == StreamingBlock(Building(o, i, text, q), false)
    ensures ApplyAll(b, Changed(i, w)) ==
          Ok(b.(blocks := b.blocks[i := StreamingBlock(Building(o, i, text + TextOf(w), q), false)]))
  {
    if TextOf(w) == "" {
      assert text + TextOf(w) == text;
      assert b.blocks[i := b.blocks[i]] == b.blocks;
    } else {
      assert Changed(i, w) == [BlockChanged(i, ChangeOf(w))] + [];
      ApplyThen(b, BlockChanged(i, ChangeOf(w)), []);
    }
  }

  /** A delta of another block leaves a draft as it is. */
  lemma {:induction false} DraftStays(ws: seq<Wire>, w: Wire, j: nat)
    requires j < |Openings(ws)| <= |Openings(ws + [w])| && Openings(ws + [w])[j] == Openings(ws)[j]
    requires KeyOf(w) != KeyOf(Openings(ws)[j])
    ensures Drafts(ws + [w])[j] == Drafts(ws)[j]
  {
    var key := KeyOf(Openings(ws)[j]).value;
    GatheredAppend(ws, w, key);
    assert Gathered(ws, key) + "" == Gathered(ws, key);
  }

  lemma {:induction false} DraftStarts(ws: seq<Wire>, w: Wire)
    requires KeyOf(w).Some? && PlaceOf(Openings(ws), KeyOf(w).value).None? && Openings(ws + [w]) == Openings(ws) + [w]
    ensures Drafts(ws + [w])[|Openings(ws)|] == Draft(w, TextOf(w))
  {
    var key := KeyOf(w).value;
    GatheredAppend(ws, w, key);
    UnseenIsEmpty(ws, key);
    assert "" + TextOf(w) == TextOf(w);
  }

  /** A delta for a block already open extends that block and no other. */
  lemma {:induction false} DraftsAfterChange(ws: seq<Wire>, w: Wire, i: nat)
    requires KeyOf(w).Some? && PlaceOf(Openings(ws), KeyOf(w).value) == Some(i)
    ensures var before := Drafts(ws);
            i < |before| && Drafts(ws + [w]) == before[i := Draft(before[i].opening, before[i].text + TextOf(w))]
  {
    var before, after, os := Drafts(ws), Drafts(ws + [w]), Openings(ws);
    assert Openings(ws + [w]) == os by { OpeningsAppend(ws, w); }
    var target := before[i := Draft(before[i].opening, before[i].text + TextOf(w))];
    forall j | 0 <= j < |os| ensures after[j] == target[j] {
      if j == i {
        GatheredAppend(ws, w, KeyOf(w).value);
      } else {
        OpeningsDistinct(ws, j);
        DraftStays(ws, w, j);
      }
    }
  }

  lemma {:induction false} OneMoreDraft(after: seq<Draft>, before: seq<Draft>, last: Draft)
    requires |after| == |before| + 1 && after[|before|] == last
    requires forall j :: 0 <= j < |before| ==> after[j] == before[j]
    ensures after == before + [last]
  {
  }

  /** A delta of an unseen block opens a new one. */
  lemma {:induction false} DraftsAfterStart(ws: seq<Wire>, w: Wire)
    requires KeyOf(w).Some? && PlaceOf(Openings(ws), KeyOf(w).value).None?
    ensures Drafts(ws + [w]) == Drafts(ws) + [Draft(w, TextOf(w))]
  {
    var os := Openings(ws);
    assert Openings(ws + [w]) == os + [w] by { OpeningsAppend(ws, w); }
    forall j | 0 <= j < |os| ensures Drafts(ws + [w])[j] == Drafts(ws)[j] {
      DraftStays(ws, w, j);
    }
    DraftStarts(ws, w);
    OneMoreDraft(Drafts(ws + [w]), Drafts(ws), Draft(w, TextOf(w)));
  }

  lemma {:induction false} DraftsAfterOther(ws: seq<Wire>, w: Wire)
    requires KeyOf(w).None?
    ensures Drafts(ws + [w]) == Drafts(ws)
  {
    var before, after, os := Drafts(ws), Drafts(ws + [w]), Openings(ws);
    assert Openings(ws + [w]) == os by { OpeningsAppend(ws, w); }
    forall j | 0 <= j < |os| ensures after[j] == before[j] {
      DraftStays(ws, w, j);
    }
  }

  lemma {:induction false} MatchAfterChange(blocks: map<nat, StreamingBlock>, drafts: seq<Draft>, i: nat, text: string,
                                            q: Request)
    requires Opened(drafts) && BlocksMatch(blocks, drafts, q, 0) && i < |drafts|
    ensures BlocksMatch(blocks[i := StreamingBlock(Building(drafts[i].opening, i, text, q), false)],
                        drafts[i := Draft(drafts[i].opening, text)], q, 0)
  {
  }

  lemma {:induction false} MatchAfterStart(blocks: map<nat, StreamingBlock>, drafts: seq<Draft>, w: Wire, q: Request)
    requires Opened(drafts) && BlocksMatch(blocks, drafts, q, 0) && KeyOf(w).Some?
    ensures BlocksMatch(blocks[|drafts| := StreamingBlock(Building(w, |drafts|, TextOf(w), q), false)],
                        drafts + [Draft(w, TextOf(w))], q, 0)
  {
  }

  lemma {:induction false} IndicesAfterStart(d: Decoder, os: seq<Wire>, w: Wire)
    requires IndicesMatch(d, os) && KeyOf(w).Some? && PlaceOf(os, KeyOf(w).value).None?
    ensures IndicesMatch(d.Allocated(KeyOf(w).value), os + [w])
  {
    var d' := d.Allocated(KeyOf(w).value);
    var os' := os + [w];
    forall key ensures FoundAt(d', os', key) {
      PlaceOfAppend(os, w, key);
      assert FoundAt(d, os, key);
    }
  }

  /** The collector takes in `events`, changing nothing but its blocks, and is in step with the decoder again. */
  ghost predicate Reaches(b: Builder, events: seq<Event>, d': Decoder, ws': seq<Wire>, q: Request) {
    && ApplyAll(b, events).Ok?
    && var b' := ApplyAll(b, events).value;
       b' == b.(blocks := b'.blocks) && InStep(d', b', ws', q)
  }

  lemma {:induction false} ReachesBy(b: Builder, events: seq<Event>, blocks: map<nat, StreamingBlock>, d': Decoder,
                                     ws': seq<Wire>, q: Request)
    requires ApplyAll(b, events) == Ok(b.(blocks := blocks)) && BlocksMatch(blocks, Drafts(ws'), q, 0)
    requires IndicesMatch(d', Openings(ws')) && d'.stopReason == LastReason(ws') && d'.usage == LastUsage(ws')
    ensures Reaches(b, events, d', ws', q)
  {
  }

  lemma {:induction false} ChangeInStep(d: Decoder, b: Builder, ws: seq<Wire>, w: Wire, i: nat, q: Request)
    requires InStep(d, b, ws, q) && KeyOf(w).Some? && PlaceOf(Openings(ws), KeyOf(w).value) == Some(i)
    ensures Reaches(b, Changed(i, w), d, ws + [w], q)
  {
    var drafts, ws' := Drafts(ws), ws + [w];
    var text := drafts[i].text + TextOf(w);
    var blocks := b.blocks[i := StreamingBlock(Building(drafts[i].opening, i, text, q), false)];
    assert ApplyAll(b, Changed(i, w)) == Ok(b.(blocks := blocks)) by {
      ApplyChanged(b, i, w, drafts[i].opening, drafts[i].text, q);
    }
    assert BlocksMatch(blocks, Drafts(ws'), q, 0) by {
      MatchAfterChange(b.blocks, drafts, i, text, q);
      DraftsAfterChange(ws, w, i);
    }
    assert Openings(ws') == Openings(ws) by { OpeningsAppend(ws, w); }
    assert LastReason(ws') == LastReason(ws) && LastUsage(ws') == LastUsage(ws) by { LastsAppend(ws, w); }
    ReachesBy(b, Changed(i, w), blocks, d, ws', q);
  }

  lemma {:induction false} ApplyStart(b: Builder, n: nat, w: Wire, q: Request)
    requires KeyOf(w).Some?
    ensures ApplyAll(b, [BlockStarted(n, StartOf(w, n, q))] + Changed(n, w))
         == Ok(b.(blocks := b.blocks[n := StreamingBlock(Building(w, n, TextOf(w), q), false)]))
  {
    var start, last := BlockStarted(n, StartOf(w, n, q)), StreamingBlock(Building(w, n, TextOf(w), q), false);
    var b1 := b.(blocks := b.blocks[n := StreamingBlock(Building(w, n, "", q), false)]);
    assert Apply(b, start) == Ok(b1);
    assert ApplyAll(b1, Changed(n, w)) == Ok(b1.(blocks := b1.blocks[n := last])) by {
      ApplyChanged(b1, n, w, w, "", q);
      assert "" + TextOf(w) == TextOf(w);
    }
    assert b1.blocks[n := last] == b.blocks[n := last];
    ApplyThen(b, start, Changed(n, w));
  }

  lemma {:induction false} StartInStep(d: Decoder, b: Builder, ws: seq<Wire>, w: Wire, q: Request)
    requires InStep(d, b, ws, q) && KeyOf(w).Some? && PlaceOf(Openings(ws), KeyOf(w).value).None?
    ensures Reaches(b, [BlockStarted(|Openings(ws)|, StartOf(w, |Openings(ws)|, q))] + Changed(|Openings(ws)|, w),
                    d.Allocated(KeyOf(w).value), ws + [w], q)
  {
    var n, ws', d' := |Openings(ws)|, ws + [w], d.Allocated(KeyOf(w).value);
    var blocks := b.blocks[n := StreamingBlock(Building(w, n, TextOf(w), q), false)];
    var events := [BlockStarted(n, StartOf(w, n, q))] + Changed(n, w);
    assert ApplyAll(b, events) == Ok(b.(blocks := blocks)) by { ApplyStart(b, n, w, q); }
    assert BlocksMatch(blocks, Drafts(ws'), q, 0) by {
      MatchAfterStart(b.blocks, Drafts(ws), w, q);
      DraftsAfterStart(ws, w);
    }
    assert IndicesMatch(d', Openings(ws')) by {
      IndicesAfterStart(d, Openings(ws), w);
      OpeningsAppend(ws, w);
    }
    assert LastReason(ws') == LastReason(ws) && LastUsage(ws') == LastUsage(ws) by { LastsAppend(ws, w); }
    ReachesBy(b, events, blocks, d', ws', q);
  }

  lemma {:induction false} IndicesStay(d: Decoder, d': Decoder, os: seq<Wire>)
    requires IndicesMatch(d, os) && d' == d.(started := d'.started, stopReason := d'.stopReason, usage := d'.usage)
    ensures IndicesMatch(d', os)
  {
    forall key ensures FoundAt(d', os, key) {
      assert FoundAt(d, os, key);
    }
  }

  lemma {:induction false} OtherInStep(d: Decoder, b: Builder, ws: seq<Wire>, w: Wire, q: Request)
    requires InStep(d, b, ws, q) && KeyOf(w).None?
    ensures Reaches(b, [], Emit(d, w, q).0, ws + [w], q)
  {
    var d', ws' := Emit(d, w, q).0, ws + [w];
    assert Openings(ws') == Openings(ws) by { OpeningsAppend(ws, w); }
    assert d'.stopReason == LastReason(ws') && d'.usage == LastUsage(ws') by { LastsAppend(ws, w); }
    assert Drafts(ws') == Drafts(ws) by { DraftsAfterOther(ws, w); }
    IndicesStay(d, d', Openings(ws));
    assert ApplyAll(b, []) == Ok(b);
  }

  /** One delta keeps decoder and collector in step: whatever is emitted is accepted. */
  lemma {:induction false} EmitInStep(d: Decoder, b: Builder, ws: seq<Wire>, w: Wire, q: Request)
    requires InStep(d, b, ws, q)
    ensures Reaches(b, Emit(d, w, q).1, Emit(d, w, q).0, ws + [w], q)
  {
    if KeyOf(w).None? {
      OtherInStep(d, b, ws, w, q);
    } else {
      var key := KeyOf(w).value;
      assert FoundAt(d, Openings(ws), key);
      match PlaceOf(Openings(ws), key)
      case Some(i) => ChangeInStep(d, b, ws, w, i, q);
      case None => StartInStep(d, b, ws, w, q);
    }
  }

  lemma {:induction false} ReachesThen(b: Builder, events: seq<Event>, d: Decoder, ws: seq<Wire>,
                                       more: seq<Event>, d': Decoder, ws': seq<Wire>, q: Request)
    requires Reaches(b, events, d, ws, q) && Reaches(ApplyAll(b, events).value, more, d', ws', q)
    ensures Reaches(b, events + more, d', ws', q)
  {
    ApplyAllConcat(b, events, more);
  }

  lemma {:induction false} EmitAllInStep(d: Decoder, b: Builder, ws: seq<Wire>, more: seq<Wire>, q: Request)
    requires InStep(d, b, ws, q)
    ensures Reaches(b, EmitAll(d, more, q).1, EmitAll(d, more, q).0, ws + more, q)
    decreases |more|
  {
    if more == [] {
      assert ws + more == ws;
    } else {
      var front, w := more[..|more| - 1], more[|more| - 1];
      var (d1, before) := EmitAll(d, front, q);
      assert Reaches(b, before, d1, ws + front, q) by { EmitAllInStep(d, b, ws, front, q); }
      EmitOneInStep(d1, b, before, ws + front, w, q);
      EmitAllSnoc(d, front, w, q);
      assert more == front + [w];
      Regroup(ws, front, [w]);
    }
  }

  lemma {:induction false} EmitOneInStep(d: Decoder, b: Builder, before: seq<Event>, ws: seq<Wire>, w: Wire, q: Request)
    requires Reaches(b, before, d, ws, q)
    ensures Reaches(b, before + Emit(d, w, q).1, Emit(d, w, q).0, ws + [w], q)
  {
    var (d', events) := Emit(d, w, q);
    assert Reaches(ApplyAll(b, before).value, events, d', ws + [w], q) by {
      EmitInStep(d, ApplyAll(b, before).value, ws, w, q);
    }
    ReachesThen(b, before, d, ws, events, d', ws + [w], q);
  }

  lemma {:induction false} EmitAllKeepsFlags(d: Decoder, ws: seq<Wire>, q: Request)
    ensures EmitAll(d, ws, q).0.started == d.started && EmitAll(d, ws, q).0.finished == d.finished
    decreases |ws|
  {
    if ws != [] {
      EmitAllKeepsFlags(d, ws[..|ws| - 1], q);
    }
  }

  // ---------------------------------------------------------------- closing

  lemma {:induction false} StopOne(b: Builder, drafts: seq<Draft>, q: Request, n: nat)
    requires Opened(drafts) && BlocksMatch(b.blocks, drafts, q, n) && n < |drafts|
    ensures Apply(b, BlockStopped(n)).Ok?
    ensures var b' := Apply(b, BlockStopped(n)).value;
            b' == b.(blocks := b'.blocks) && BlocksMatch(b'.blocks, drafts, q, n + 1)
  {
  }

  lemma {:induction false} ApplyStops(b: Builder, drafts: seq<Draft>, q: Request, n: nat)
    requires Opened(drafts) && BlocksMatch(b.blocks, drafts, q, 0) && n <= |drafts|
    ensures ApplyAll(b, Stops(UpTo(n))).Ok?
    ensures var b' := ApplyAll(b, Stops(UpTo(n))).value;
            b' == b.(blocks := b'.blocks) && BlocksMatch(b'.blocks, drafts, q, n)
    decreases n
  {
    if n > 0 {
      ApplyStops(b, drafts, q, n - 1);
      var front := Stops(UpTo(n - 1));
      assert Stops(UpTo(n)) == front + [BlockStopped(n - 1)];
      assert (front + [BlockStopped(n - 1)])[..n - 1] == front;
      StopOne(ApplyAll(b, front).value, drafts, q, n - 1);
    }
  }

  lemma {:induction false} BuildingIsPromised(w: Wire, i: nat, text: string, q: Request, parse: Parser)
    requires KeyOf(w).Some?
    ensures IntoBlock(Building(w, i, text, q), parse) == PromisedBlock(w, i, text, q, parse)
  {
  }

  /** The first `n` blocks came out as promised, or one of them could not be read. */
  ghost predicate AsPromised(r: Result<seq<ContentBlock>, StreamError>, drafts: seq<Draft>, q: Request, parse: Parser,
                             n: nat)
    requires Opened(drafts) && n <= |drafts|
  {
    match r
    case Ok(content) => |content| == n && forall i :: 0 <= i < n ==> PromisedAt(drafts, i, q, parse) == Ok(content[i])
    case Err(error) => error == BadJson && exists i :: 0 <= i < n && PromisedAt(drafts, i, q, parse).Err?
  }

  lemma {:induction false} AsPromisedOneMore(content: seq<ContentBlock>, block: ContentBlock, drafts: seq<Draft>,
                                             q: Request, parse: Parser, n: nat)
    requires Opened(drafts) && n < |drafts| && AsPromised(Ok(content), drafts, q, parse, n)
    requires PromisedAt(drafts, n, q, parse) == Ok(block)
    ensures AsPromised(Ok(content + [block]), drafts, q, parse, n + 1)
  {
  }

  lemma {:induction false} ContentsAsPromised(blocks: map<nat, StreamingBlock>, drafts: seq<Draft>, q: Request,
                                              parse: Parser, n: nat)
    requires Opened(drafts) && n <= |drafts| && BlocksMatch(blocks, drafts, q, |drafts|)
    ensures AsPromised(Contents(blocks, parse, n), drafts, q, parse, n)
    decreases n
  {
    if n > 0 {
      var k := n - 1;
      ContentsAsPromised(blocks, drafts, q, parse, k);
      assert IntoBlock(blocks[k].partial, parse) == PromisedAt(drafts, k, q, parse) by {
        BuildingIsPromised(drafts[k].opening, k, drafts[k].text, q, parse);
      }
      if Contents(blocks, parse, k).Ok? && PromisedAt(drafts, k, q, parse).Ok? {
        AsPromisedOneMore(Contents(blocks, parse, k).value, PromisedAt(drafts, k, q, parse).value, drafts, q, parse, k);
      }
    }
  }

  /** A collector holding exactly the closed blocks of `chunks`, under the right heading. */
  ghost predicate Concluded(b: Builder, chunks: seq<Chunk>, q: Request) {
    var ws := WiresOf(chunks);
    && b.stopped
    && Headed(b, chunks, q)
    && BlocksMatch(b.blocks, Drafts(ws), q, |Drafts(ws)|)
    && b.stopReason == LastReason(ws) && b.usage == LastUsage(ws)
  }

  ghost predicate Headed(b: Builder, chunks: seq<Chunk>, q: Request) {
    && b.id == Some(if chunks == [] then "" else OrElse(chunks[0].id, ""))
    && b.model == Some(if chunks == [] then q.model else OrElse(chunks[0].model, q.model))
    && b.role == Some(Assistant)
  }

  lemma {:induction false} BuildAsPromised(b: Builder, chunks: seq<Chunk>, q: Request, parse: Parser)
    requires Concluded(b, chunks, q)
    ensures Build(b, parse) == Promised(chunks, q, parse)
  {
    var drafts := Drafts(WiresOf(chunks));
    LimitOfRange(b.blocks.Keys, |drafts|);
    ContentsAsPromised(b.blocks, drafts, q, parse, |drafts|);
    ContentsDecided(Contents(b.blocks, parse, |drafts|), drafts, q, parse);
  }

  lemma {:induction false} ContentsDecided(r: Result<seq<ContentBlock>, StreamError>, drafts: seq<Draft>, q: Request,
                                           parse: Parser)
    requires Opened(drafts) && AsPromised(r, drafts, q, parse, |drafts|)
    ensures r == if Readable(drafts, q, parse) then Ok(PromisedContent(drafts, q, parse)) else Err(BadJson)
  {
    if r.Ok? {
      assert Readable(drafts, q, parse);
      var promised := PromisedContent(drafts, q, parse);
      assert forall i :: 0 <= i < |drafts| ==>
        PromisedAt(drafts, i, q, parse) == Ok(r.value[i]) && r.value[i] == promised[i];
      assert r.value == promised;
    } else {
      var i :| 0 <= i < |drafts| && PromisedAt(drafts, i, q, parse).Err?;
      assert !Readable(drafts, q, parse);
    }
  }

  // ---------------------------------------------------------------- runs over decoded frames

  /** A frame's payload: nothing, the end marker, a chunk, or something unreadable. */
  datatype Frame = Quiet | Done | Data(chunk: Chunk) | Bad

  /** The events sent so far, and whether an unreadable frame ended the stream. */
  datatype Progress = Progress(decoder: Decoder, events: seq<Event>, failed: bool)

  function Handle(p: Progress, f: Frame, q: Request): (r: Progress) {
    if p.failed then p
    else match f
      case Quiet => p
      case Done => var (d, events) := Close(p.decoder, q); p.(decoder := d, events := p.events + events)
      case Data(chunk) => var (d, events) := Accept(p.decoder, chunk, q); p.(decoder := d, events := p.events + events)
      case Bad => p.(failed := true)
  }

  function HandleFrom(p: Progress, fs: seq<Frame>, q: Request): (r: Progress)
    decreases |fs|
  {
    if fs == [] then p else Handle(HandleFrom(p, fs[..|fs| - 1], q), fs[|fs| - 1], q)
  }

  const START := Progress(IDLE, [], false)

  function HandleAll(fs: seq<Frame>, q: Request): (r: Progress) {
    HandleFrom(START, fs, q)
  }

  ghost predicate Ends(fs: seq<Frame>) {
    exists k :: 0 <= k < |fs| && fs[k].Done?
  }

  /** The chunks before the first end marker. */
  ghost function Live(fs: seq<Frame>): (r: seq<Chunk>)
    decreases |fs|
  {
    if fs == [] then []
    else if !Ends(fs[..|fs| - 1]) && fs[|fs| - 1].Data? then Live(fs[..|fs| - 1]) + [fs[|fs| - 1].chunk]
    else Live(fs[..|fs| - 1])
  }

  ghost predicate Underway(d: Decoder, b: Builder, chunks: seq<Chunk>, q: Request) {
    && !d.finished && !b.stopped
    && (d.started <==> chunks != [])
    && (d.started ==> Headed(b, chunks, q))
    && InStep(d, b, WiresOf(chunks), q)
  }

  lemma {:induction false} WiresOneMore(chunks: seq<Chunk>, c: Chunk)
    ensures WiresOf(chunks + [c]) == WiresOf(chunks) + WiresOfChunk(c)
  {
    assert (chunks + [c])[..|chunks|] == chunks;
  }

  /** A chunk read once the message has started. */
  lemma {:induction false} AcceptStarted(d: Decoder, b: Builder, chunks: seq<Chunk>, c: Chunk, q: Request)
    requires d.started && !d.finished && !b.stopped && Headed(b, chunks + [c], q) && InStep(d, b, WiresOf(chunks), q)
    ensures var (d', events) := EmitAll(d, WiresOfChunk(c), q);
            ApplyAll(b, events).Ok? && Underway(d', ApplyAll(b, events).value, chunks + [c], q)
  {
    var (d', events) := EmitAll(d, WiresOfChunk(c), q);
    assert Reaches(b, events, d', WiresOf(chunks + [c]), q) by {
      EmitAllInStep(d, b, WiresOf(chunks), WiresOfChunk(c), q);
      WiresOneMore(chunks, c);
    }
    assert d'.started && !d'.finished by { EmitAllKeepsFlags(d, WiresOfChunk(c), q); }
  }

  /** The first chunk starts the message. */
  lemma {:induction false} AcceptFirst(d: Decoder, b: Builder, chunks: seq<Chunk>, c: Chunk, q: Request)
    requires Underway(d, b, chunks, q) && !d.started
    ensures var (d', events) := Accept(d, c, q);
            ApplyAll(b, events).Ok? && Underway(d', ApplyAll(b, events).value, chunks + [c], q)
  {
    var start := MessageStarted(OrElse(c.id, ""), OrElse(c.model, q.model), Assistant);
    var d0, b0 := d.(started := true), Apply(b, start).value;
    var events := EmitAll(d0, WiresOfChunk(c), q).1;
    assert chunks + [c] == [c];
    assert InStep(d0, b0, WiresOf(chunks), q) by {
      IndicesStay(d, d0, Openings(WiresOf(chunks)));
    }
    AcceptStarted(d0, b0, chunks, c, q);
    ApplyThen(b, start, events);
  }

  lemma {:induction false} AcceptKeepsStep(d: Decoder, b: Builder, chunks: seq<Chunk>, c: Chunk, q: Request)
    requires Underway(d, b, chunks, q)
    ensures var (d', events) := Accept(d, c, q);
            ApplyAll(b, events).Ok? && Underway(d', ApplyAll(b, events).value, chunks + [c], q)
  {
    if d.started {
      assert d.(started := true) == d && (chunks + [c])[0] == chunks[0];
      AcceptStarted(d, b, chunks, c, q);
      assert [] + EmitAll(d, WiresOfChunk(c), q).1 == EmitAll(d, WiresOfChunk(c), q).1;
    } else {
      AcceptFirst(d, b, chunks, c, q);
    }
  }

  lemma {:induction false} CloseConcludes(d: Decoder, b: Builder, chunks: seq<Chunk>, q: Request)
    requires Underway(d, b, chunks, q)
    ensures var (d', events) := Close(d, q);
            d'.finished && ApplyAll(b, events).Ok? && Concluded(ApplyAll(b, events).value, chunks, q)
  {
    var ws := WiresOf(chunks);
    var start := MessageStarted("", q.model, Assistant);
    var b0 := if d.started then b else Apply(b, start).value;
    var stops, end := Stops(d.open), [MessageDelta(d.stopReason, d.usage), MessageStopped];
    ApplyStops(b0, Drafts(ws), q, |Drafts(ws)|);
    var b1 := ApplyAll(b0, stops).value;
    ApplyAllConcat(b0, stops, end);
    ApplyEnd(b1, d.stopReason, d.usage);
    if d.started {
      assert Close(d, q).1 == stops + end;
    } else {
      assert Close(d, q).1 == [start] + (stops + end);
      ApplyThen(b, start, stops + end);
    }
  }

  /** What holds after any frames: every event sent was accepted, and the collector stands where the chunks say. */
  ghost predicate Tracks(p: Progress, fs: seq<Frame>, q: Request) {
    && ApplyAll(EMPTY, p.events).Ok?
    && var b := ApplyAll(EMPTY, p.events).value;
       if Ends(fs) then p.decoder.finished && Concluded(b, Live(fs), q) else Underway(p.decoder, b, Live(fs), q)
  }

  lemma {:induction false} LiveAppend(fs: seq<Frame>, f: Frame)
    ensures Ends(fs + [f]) <==> Ends(fs) || f.Done?
    ensures Live(fs + [f]) == if !Ends(fs) && f.Data? then Live(fs) + [f.chunk] else Live(fs)
  {
    var more := fs + [f];
    assert more[..|more| - 1] == fs && more[|more| - 1] == f;
    if Ends(fs) {
      var k :| 0 <= k < |fs| && fs[k].Done?;
      assert more[k].Done?;
    }
  }

  lemma {:induction false} TracksDone(p: Progress, fs: seq<Frame>, q: Request)
    requires Tracks(p, fs, q) && !p.failed && !Ends(fs)
    ensures Tracks(Handle(p, Done, q), fs + [Done], q)
  {
    LiveAppend(fs, Done);
    CloseConcludes(p.decoder, ApplyAll(EMPTY, p.events).value, Live(fs), q);
    ApplyAllConcat(EMPTY, p.events, Close(p.decoder, q).1);
  }

  lemma {:induction false} TracksData(p: Progress, fs: seq<Frame>, c: Chunk, q: Request)
    requires Tracks(p, fs, q) && !p.failed && !Ends(fs)
    ensures Tracks(Handle(p, Data(c), q), fs + [Data(c)], q)
  {
    LiveAppend(fs, Data(c));
    var b := ApplyAll(EMPTY, p.events).value;
    var (d, events) := Accept(p.decoder, c, q);
    assert ApplyAll(b, events).Ok? && Underway(d, ApplyAll(b, events).value, Live(fs) + [c], q) by {
      AcceptKeepsStep(p.decoder, b, Live(fs), c, q);
    }
    assert ApplyAll(EMPTY, p.events + events) == ApplyAll(b, events) by { ApplyAllConcat(EMPTY, p.events, events); }
    assert Handle(p, Data(c), q) == p.(decoder := d, events := p.events + events);
  }

  lemma {:induction false} TracksIdle(p: Progress, fs: seq<Frame>, f: Frame, q: Request)
    requires Tracks(p, fs, q) && !p.failed && !f.Bad? && (Ends(fs) || f.Quiet?)
    ensures Tracks(Handle(p, f, q), fs + [f], q)
  {
    LiveAppend(fs, f);
    assert p.events + [] == p.events;
    assert Handle(p, f, q) == p;
  }

  lemma {:induction false} TracksOneMore(p: Progress, fs: seq<Frame>, f: Frame, q: Request)
    requires Tracks(p, fs, q) && !p.failed && !f.Bad?
    ensures Tracks(Handle(p, f, q), fs + [f], q)
  {
    if Ends(fs) || f.Quiet? {
      TracksIdle(p, fs, f, q);
    } else if f.Done? {
      TracksDone(p, fs, q);
    } else {
      TracksData(p, fs, f.chunk, q);
    }
  }

  ghost predicate AllReadable(fs: seq<Frame>) {
    forall k :: 0 <= k < |fs| ==> !fs[k].Bad?
  }

  lemma {:induction false} NothingTracks(q: Request)
    ensures Tracks(START, [], q)
  {
    assert BlocksMatch(EMPTY.blocks, Drafts([]), q, 0);
  }

  lemma {:induction false} HandleAllTracks(fs: seq<Frame>, q: Request)
    requires AllReadable(fs)
    ensures !HandleAll(fs, q).failed && Tracks(HandleAll(fs, q), fs, q)
    decreases |fs|
  {
    if fs == [] {
      NothingTracks(q);
    } else {
      var front, f := fs[..|fs| - 1], fs[|fs| - 1];
      var p := HandleAll(front, q);
      assert !p.failed && Tracks(p, front, q) by { HandleAllTracks(front, q); }
      assert Tracks(Handle(p, f, q), front + [f], q) by { TracksOneMore(p, front, f, q); }
      assert fs == front + [f];
    }
  }

  /**
   For every sequence of frames, with the end marker anywhere or nowhere, the emitted events are collected into
   the response the chunks before the first end marker stand for; the only failure is a tool call whose
   arguments are not JSON.
   */
  lemma {:induction false} StreamCollectsAsPromised(fs: seq<Frame>, q: Request, parse: Parser)
    requires AllReadable(fs)
    ensures var p := HandleAll(fs, q);
            Collected(p.events + Close(p.decoder, q).1, parse) == Promised(Live(fs), q, parse)
  {
    var p := HandleAll(fs, q);
    HandleAllTracks(fs, q);
    var b := ApplyAll(EMPTY, p.events).value;
    if Ends(fs) {
      assert p.events + [] == p.events;
      BuildAsPromised(b, Live(fs), q, parse);
    } else {
      CloseConcludes(p.decoder, b, Live(fs), q);
      ApplyAllConcat(EMPTY, p.events, Close(p.decoder, q).1);
      BuildAsPromised(ApplyAll(b, Close(p.decoder, q).1).value, Live(fs), q, parse);
    }
  }
}
