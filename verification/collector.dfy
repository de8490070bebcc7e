/**
 Provider events, the collector that rebuilds a response from them, and the
 printer that expands a response into them.

 JSON text is not modelled: `parse` (and, for the printer, `show`) are
 parameters, so every statement holds for whatever JSON reader is in use.
 */
module Collector {
  import opened Base

  datatype Json =
    | JNull
    | JBool(b: bool)
    | JNumber(digits: string)
    | JString(text: string)
    | JArray(elements: seq<Json>)
    | JObject(fields: seq<(string, Json)>)

  type Parser = string -> Option<Json>

  datatype Role = User | Assistant | UnknownRole(name: string)

  datatype TokenUsage = TokenUsage(
    inputTokens: Option<nat>, outputTokens: Option<nat>, totalTokens: Option<nat>,
    cacheReadInputTokens: Option<nat>, cacheCreationInputTokens: Option<nat>,
    reasoningTokens: Option<nat>, thoughtsTokens: Option<nat>, toolInputTokens: Option<nat>)

  datatype Provenance = Provenance(provider: string, model: string, format: string)

  datatype ToolResultContent = PlainText(text: string) | Structured(value: Json)

  datatype ToolSearchCall = ToolSearchCall(id: string, status: Option<string>, query: Option<string>)

  /** `action` stands for the provider-neutral search action, which nothing here looks into. */
  datatype WebSearchCall = WebSearchCall(id: string, status: Option<string>, action: Option<string>)

  /** `result` stands for the generated image, which nothing here looks into. */
  datatype ImageCall = ImageCall(id: string, status: string, revisedPrompt: Option<string>, result: Option<string>)

  datatype ContentBlock =
    | Text(text: string)
    | Thinking(thinking: string, signature: Option<string>, encrypted: Option<string>, id: Option<string>,
               provenance: Option<Provenance>, redacted: bool)
    | Image(source: string)
    | ToolUse(callId: string, name: string, input: Json)
    | ToolResult(toolUseId: string, content: ToolResultContent, isError: bool)
    | HostedToolSearch(toolSearch: ToolSearchCall)
    | HostedWebSearch(webSearch: WebSearchCall)
    | ImageGeneration(image: ImageCall)

  datatype BlockStart =
    | StartText
    | StartThinking(encrypted: Option<string>, id: Option<string>, provenance: Option<Provenance>, redacted: bool)
    | StartImage(source: string)
    | StartToolUse(callId: string, name: string)
    | StartToolResult(toolUseId: string, isError: bool, content: Option<ToolResultContent>)
    | StartToolSearch(toolSearch: ToolSearchCall)
    | StartWebSearch(webSearch: WebSearchCall)
    | StartImageGeneration(image: ImageCall)

  datatype BlockDelta =
    | TextDelta(text: string)
    | ThinkingText(text: string)
    | ThinkingSignature(text: string)
    | ThinkingEncrypted(text: string)
    | ToolUseInput(text: string)
    | ToolResultDelta(content: ToolResultContent)
    | ToolSearchQuery(text: string)
    | ToolSearchStatus(text: string)
    | WebSearchAction(action: string)
    | WebSearchStatus(text: string)
    | ImageStatus(text: string)
    | ImageRevisedPrompt(text: string)
    | ImageResult(result: string)

  datatype Event =
    | ResponseHeaders
    | ResponseCreated
    | MessageStarted(id: string, model: string, role: Role)
    | BlockStarted(index: nat, kind: BlockStart)
    | BlockChanged(index: nat, delta: BlockDelta)
    | BlockStopped(index: nat)
    | MessageDelta(stopReason: Option<string>, usage: Option<TokenUsage>)
    | ReasoningDelta
    | MessageStopped

  datatype Response = Response(id: string, model: string, role: Role, content: seq<ContentBlock>,
                               stopReason: Option<string>, usage: Option<TokenUsage>)

  datatype StreamError =
    | DeltaBeforeStart(index: nat)
    | StopBeforeStart(index: nat)
    | WrongDelta
    | EndedEarly
    | MissingId
    | MissingModel
    | MissingRole
    | Incomplete(index: nat)
    | BadJson

  // ---------------------------------------------------------------- one block

  /** A block being received: what it would become, except that tool input is still JSON text. */
  datatype Partial =
    | PText(text: string)
    | PThinking(thinking: string, signature: Option<string>, encrypted: Option<string>, id: Option<string>,
                provenance: Option<Provenance>, redacted: bool)
    | PImage(source: string)
    | PToolUse(callId: string, name: string, inputJson: string)
    | PToolResult(toolUseId: string, content: Option<ToolResultContent>, isError: bool)
    | PToolSearch(toolSearch: ToolSearchCall)
    | PWebSearch(webSearch: WebSearchCall)
    | PImageGeneration(image: ImageCall)

  datatype StreamingBlock = StreamingBlock(partial: Partial, complete: bool)

  function Begin(kind: BlockStart): Partial {
    match kind
    case StartText => PText("")
    case StartThinking(encrypted, id, provenance, redacted) => PThinking("", None, encrypted, id, provenance, redacted)
    case StartImage(source) => PImage(source)
    case StartToolUse(callId, name) => PToolUse(callId, name, "")
    case StartToolResult(toolUseId, isError, content) => PToolResult(toolUseId, content, isError)
    case StartToolSearch(call) => PToolSearch(call)
    case StartWebSearch(call) => PWebSearch(call)
    case StartImageGeneration(call) => PImageGeneration(call)
  }

  function Extended(existing: Option<string>, text: string): Option<string> {
    Some((if existing.Some? then existing.value else "") + text)
  }

  /** Text after structured content joins it only when that content is a JSON string. */
  function MergeContent(existing: Option<ToolResultContent>, delta: ToolResultContent): ToolResultContent {
    match (existing, delta)
    case (_, Structured(value)) => delta
    case (None, PlainText(_)) => delta
    case (Some(PlainText(text)), PlainText(more)) => PlainText(text + more)
    case (Some(Structured(value)), PlainText(more)) =>
      Structured(if value.JString? then JString(value.text + more) else value)
  }

  function ApplyDelta(p: Partial, delta: BlockDelta): (r: Result<Partial, StreamError>) {
    match (p, delta)
    case (PText(text), TextDelta(more)) => Ok(PText(text + more))
    case (PThinking(thinking, _, _, _, _, _), ThinkingText(more)) => Ok(p.(thinking := thinking + more))
    case (PThinking(_, signature, _, _, _, _), ThinkingSignature(more)) =>
      Ok(p.(signature := Extended(signature, more)))
    case (PThinking(_, _, _, _, _, _), ThinkingEncrypted(value)) => Ok(p.(encrypted := Some(value)))
    case (PToolUse(_, _, inputJson), ToolUseInput(more)) => Ok(p.(inputJson := inputJson + more))
    case (PToolResult(_, content, _), ToolResultDelta(more)) => Ok(p.(content := Some(MergeContent(content, more))))
    case (PToolSearch(call), ToolSearchQuery(more)) => Ok(PToolSearch(call.(query := Extended(call.query, more))))
    case (PToolSearch(call), ToolSearchStatus(status)) => Ok(PToolSearch(call.(status := Some(status))))
    case (PWebSearch(call), WebSearchAction(action)) => Ok(PWebSearch(call.(action := Some(action))))
    case (PWebSearch(call), WebSearchStatus(status)) => Ok(PWebSearch(call.(status := Some(status))))
    case (PImageGeneration(call), ImageStatus(status)) => Ok(PImageGeneration(call.(status := status)))
    case (PImageGeneration(call), ImageRevisedPrompt(more)) =>
      Ok(PImageGeneration(call.(revisedPrompt := Extended(call.revisedPrompt, more))))
    case (PImageGeneration(call), ImageResult(result)) => Ok(PImageGeneration(call.(result := Some(result))))
    case _ => Err(WrongDelta)
  }

  predicate Accumulates(delta: BlockDelta) {
    delta.TextDelta? || delta.ThinkingText? || delta.ThinkingSignature? || delta.ToolUseInput?
    || delta.ToolSearchQuery? || delta.ImageRevisedPrompt? || (delta.ToolResultDelta? && delta.content.PlainText?)
  }

  /** The same kind of delta, carrying `text`. */
  function Carrying(delta: BlockDelta, text: string): BlockDelta
    requires Accumulates(delta)
  {
    if delta.ToolResultDelta? then ToolResultDelta(PlainText(text)) else delta.(text := text)
  }

  lemma {:induction false} MergeCuts(existing: Option<ToolResultContent>, a: string, b: string)
    ensures MergeContent(Some(MergeContent(existing, PlainText(a))), PlainText(b)) ==
          MergeContent(existing, PlainText(a + b))
  {
    match existing
    case Some(PlainText(text)) => assert (text + a) + b == text + (a + b);
    case Some(Structured(value)) =>
      if value.JString? {
        assert (value.text + a) + b == value.text + (a + b);
      }
    case None =>
  }

  /** Where a provider cuts a piece of text into deltas makes no difference, for any kind of block. */
  lemma {:induction false} CutsDoNotMatter(p: Partial, delta: BlockDelta, a: string, b: string)
    requires Accumulates(delta) && ApplyDelta(p, delta).Ok?
    ensures ApplyDelta(p, Carrying(delta, a)).Ok?
    ensures ApplyDelta(ApplyDelta(p, Carrying(delta, a)).value, Carrying(delta, b))
            == ApplyDelta(p, Carrying(delta, a + b))
  {
    match p
    case PText(text) => assert (text + a) + b == text + (a + b);
    case PThinking(thinking, signature, _, _, _, _) =>
      assert (thinking + a) + b == thinking + (a + b);
      ExtendedCuts(signature, a, b);
    case PToolUse(_, _, inputJson) => assert (inputJson + a) + b == inputJson + (a + b);
    case PToolResult(_, content, _) => MergeCuts(content, a, b);
    case PToolSearch(call) => ExtendedCuts(call.query, a, b);
    case PImageGeneration(call) => ExtendedCuts(call.revisedPrompt, a, b);
    case _ =>
  }

  lemma {:induction false} ExtendedCuts(existing: Option<string>, a: string, b: string)
    ensures Extended(Extended(existing, a), b) == Extended(existing, a + b)
  {
    var text := if existing.Some? then existing.value else "";
    assert (text + a) + b == text + (a + b);
  }

  function IntoBlock(p: Partial, parse: Parser): (r: Result<ContentBlock, StreamError>) {
    match p
    case PText(text) => Ok(Text(text))
    case PThinking(thinking, signature, encrypted, id, provenance, redacted) =>
      Ok(Thinking(thinking, signature, encrypted, id, provenance, redacted))
    case PImage(source) => Ok(Image(source))
    case PToolUse(callId, name, inputJson) =>
      (match parse(inputJson)
       case Some(input) => Ok(ToolUse(callId, name, input))
       case None => Err(BadJson))
    case PToolResult(toolUseId, content, isError) =>
      Ok(ToolResult(toolUseId, if content.Some? then content.value else PlainText(""), isError))
    case PToolSearch(call) => Ok(HostedToolSearch(call))
    case PWebSearch(call) => Ok(HostedWebSearch(call))
    case PImageGeneration(call) => Ok(ImageGeneration(call))
  }

  // ---------------------------------------------------------------- the collector

  datatype Builder = Builder(id: Option<string>, model: Option<string>, role: Option<Role>,
                             blocks: map<nat, StreamingBlock>, stopReason: Option<string>,
                             usage: Option<TokenUsage>, stopped: bool)

  const EMPTY := Builder(None, None, None, map[], None, None, false)

  function Apply(b: Builder, event: Event): (r: Result<Builder, StreamError>) {
    match event
    case ResponseHeaders => Ok(b)
    case ResponseCreated => Ok(b)
    case ReasoningDelta => Ok(b)
    case MessageStarted(id, model, role) => Ok(b.(id := Some(id), model := Some(model), role := Some(role)))
    case BlockStarted(index, kind) => Ok(b.(blocks := b.blocks[index := StreamingBlock(Begin(kind), false)]))
    case BlockChanged(index, delta) =>
      if index !in b.blocks then Err(DeltaBeforeStart(index))
      else (match ApplyDelta(b.blocks[index].partial, delta)
            case Ok(partial) => Ok(b.(blocks := b.blocks[index := b.blocks[index].(partial := partial)]))
            case Err(error) => Err(error))
    case BlockStopped(index) =>
      if index !in b.blocks then Err(StopBeforeStart(index))
      else Ok(b.(blocks := b.blocks[index := b.blocks[index].(complete := true)]))
    case MessageDelta(stopReason, usage) => Ok(b.(stopReason := stopReason, usage := usage))
    case MessageStopped => Ok(b.(stopped := true))
  }

  function ApplyAll(b: Builder, events: seq<Event>): (r: Result<Builder, StreamError>)
    decreases |events|
  {
    if events == [] then Ok(b)
    else match ApplyAll(b, events[..|events| - 1])
      case Err(error) => Err(error)
      case Ok(b') => Apply(b', events[|events| - 1])
  }

  /** The content blocks below `n`, in index order; the first unfinished or unreadable one is the error. */
  function Contents(blocks: map<nat, StreamingBlock>, parse: Parser, n: nat)
    : (r: Result<seq<ContentBlock>, StreamError>)
  {
    if n == 0 then Ok([])
    else match Contents(blocks, parse, n - 1)
      case Err(error) => Err(error)
      case Ok(content) =>
        if n - 1 !in blocks then Ok(content)
        else if !blocks[n - 1].complete then Err(Incomplete(n - 1))
        else match IntoBlock(blocks[n - 1].partial, parse)
          case Ok(block) => Ok(content + [block])
          case Err(error) => Err(error)
  }

  /** One more than the greatest index in use. */
  ghost function Limit(keys: set<nat>): (r: nat)
    ensures forall k :: k in keys ==> k < r
    ensures r > 0 ==> r - 1 in keys
  {
    if keys == {} then 0
    else
      var k :| k in keys;
      var rest := Limit(keys - {k});
      assert forall j :: j in keys ==> j == k || j in keys - {k};
      if k < rest then rest else k + 1
  }

  ghost function Build(b: Builder, parse: Parser): (r: Result<Response, StreamError>) {
    if !b.stopped then Err(EndedEarly)
    else if b.id.None? then Err(MissingId)
    else if b.model.None? then Err(MissingModel)
    else if b.role.None? then Err(MissingRole)
    else match Contents(b.blocks, parse, Limit(b.blocks.Keys))
      case Err(error) => Err(error)
      case Ok(content) => Ok(Response(b.id.value, b.model.value, b.role.value, content, b.stopReason, b.usage))
  }

  ghost function Collected(events: seq<Event>, parse: Parser): (r: Result<Response, StreamError>) {
    match ApplyAll(EMPTY, events)
    case Err(error) => Err(error)
    case Ok(b) => Build(b, parse)
  }

  lemma {:induction false} ApplyAllConcat(b: Builder, xs: seq<Event>, ys: seq<Event>)
    requires ApplyAll(b, xs).Ok?
    ensures ApplyAll(b, xs + ys) == ApplyAll(ApplyAll(b, xs).value, ys)
    decreases |ys|
  {
    if ys == [] {
      assert xs + ys == xs;
    } else {
      ApplyAllConcat(b, xs, ys[..|ys| - 1]);
      assert (xs + ys)[..|xs + ys| - 1] == xs + ys[..|ys| - 1];
    }
  }

  /** An event the collector rejects stops it: nothing after it changes the error. */
  lemma {:induction false} ApplyAllFails(b: Builder, events: seq<Event>, k: nat)
    requires k <= |events| && ApplyAll(b, events[..k]).Err?
    ensures ApplyAll(b, events) == ApplyAll(b, events[..k])
    decreases |events|
  {
    if k == |events| {
      assert events[..k] == events;
    } else {
      assert events[..|events| - 1][..k] == events[..k];
      ApplyAllFails(b, events[..|events| - 1], k);
    }
  }

  lemma {:induction false} ApplyThen(b: Builder, e: Event, rest: seq<Event>)
    requires Apply(b, e).Ok?
    ensures ApplyAll(b, [e] + rest) == ApplyAll(Apply(b, e).value, rest)
  {
    assert ApplyAll(b, [e]) == Apply(b, e) by {
      assert [e][..0] == [];
    }
    ApplyAllConcat(b, [e], rest);
  }

  /** Indices at which no block is open change nothing. */
  lemma {:induction false} ContentsSkips(blocks: map<nat, StreamingBlock>, parse: Parser, n: nat, m: nat)
    requires n <= m && forall k :: n <= k < m ==> k !in blocks
    ensures Contents(blocks, parse, m) == Contents(blocks, parse, n)
    decreases m
  {
    if n < m {
      ContentsSkips(blocks, parse, n, m - 1);
    }
  }

  lemma {:induction false} ContentsError(blocks: map<nat, StreamingBlock>, parse: Parser, n: nat, m: nat)
    requires n <= m && Contents(blocks, parse, n).Err?
    ensures Contents(blocks, parse, m) == Contents(blocks, parse, n)
    decreases m
  {
    if n < m {
      ContentsError(blocks, parse, n, m - 1);
    }
  }

  /** Blocks numbered from zero without a gap build in that order. */
  lemma {:induction false} LimitOfRange(keys: set<nat>, n: nat)
    requires forall k :: k in keys <==> 0 <= k < n
    ensures Limit(keys) == n
  {
    if n > 0 {
      assert n - 1 in keys;
    }
  }

  // ---------------------------------------------------------------- the printer

  function BlockEvents(block: ContentBlock, index: nat, show: Json -> string): (r: seq<Event>) {
    match block
    case Text(text) =>
      [BlockStarted(index, StartText)]
      + (if text == "" then [] else [BlockChanged(index, TextDelta(text))])
      + [BlockStopped(index)]
    case Thinking(thinking, signature, encrypted, id, provenance, redacted) =>
      [BlockStarted(index, StartThinking(encrypted, id, provenance, redacted))]
      + (if thinking == "" then [] else [BlockChanged(index, ThinkingText(thinking))])
      + (if signature.None? then [] else [BlockChanged(index, ThinkingSignature(signature.value))])
      + [BlockStopped(index)]
    case Image(source) => [BlockStarted(index, StartImage(source)), BlockStopped(index)]
    case ToolUse(callId, name, input) =>
      [BlockStarted(index, StartToolUse(callId, name))]
      + (if show(input) == "" then [] else [BlockChanged(index, ToolUseInput(show(input)))])
      + [BlockStopped(index)]
    case ToolResult(toolUseId, content, isError) =>
      [BlockStarted(index, StartToolResult(toolUseId, isError, Some(content))), BlockStopped(index)]
    case HostedToolSearch(call) => [BlockStarted(index, StartToolSearch(call)), BlockStopped(index)]
    case HostedWebSearch(call) => [BlockStarted(index, StartWebSearch(call)), BlockStopped(index)]
    case ImageGeneration(call) => [BlockStarted(index, StartImageGeneration(call)), BlockStopped(index)]
  }

  function ContentEvents(content: seq<ContentBlock>, show: Json -> string): (r: seq<Event>)
    decreases |content|
  {
    if content == [] then []
    else ContentEvents(content[..|content| - 1], show) + BlockEvents(content[|content| - 1], |content| - 1, show)
  }

  function IntoEvents(r: Response, show: Json -> string): (events: seq<Event>) {
    [MessageStarted(r.id, r.model, r.role)]
    + ContentEvents(r.content, show)
    + [MessageDelta(r.stopReason, r.usage), MessageStopped]
  }

  /** The received form of a block. */
  function Received(block: ContentBlock, show: Json -> string): Partial {
    match block
    case Text(text) => PText(text)
    case Thinking(thinking, signature, encrypted, id, provenance, redacted) =>
      PThinking(thinking, signature, encrypted, id, provenance, redacted)
    case Image(source) => PImage(source)
    case ToolUse(callId, name, input) => PToolUse(callId, name, show(input))
    case ToolResult(toolUseId, content, isError) => PToolResult(toolUseId, Some(content), isError)
    case HostedToolSearch(call) => PToolSearch(call)
    case HostedWebSearch(call) => PWebSearch(call)
    case ImageGeneration(call) => PImageGeneration(call)
  }

  /** The reader undoes the printer on the inputs of the tool calls in `content`, all that is ever printed. */
  ghost predicate ReadsInputs(content: seq<ContentBlock>, parse: Parser, show: Json -> string) {
    forall k :: 0 <= k < |content| && content[k].ToolUse? ==> parse(show(content[k].input)) == Some(content[k].input)
  }

  /** The deltas a block is printed as, without its start and stop. */
  function Deltas(block: ContentBlock, show: Json -> string): seq<BlockDelta> {
    match block
    case Text(text) => if text == "" then [] else [TextDelta(text)]
    case Thinking(thinking, signature, _, _, _, _) =>
      (if thinking == "" then [] else [ThinkingText(thinking)])
      + (if signature.None? then [] else [ThinkingSignature(signature.value)])
    case ToolUse(_, _, input) => if show(input) == "" then [] else [ToolUseInput(show(input))]
    case _ => []
  }

  function Changes(index: nat, deltas: seq<BlockDelta>): seq<Event> {
    seq(|deltas|, i requires 0 <= i < |deltas| => BlockChanged(index, deltas[i]))
  }

  function WithBlock(b: Builder, index: nat, partial: Partial, complete: bool): Builder {
    b.(blocks := b.blocks[index := StreamingBlock(partial, complete)])
  }

  lemma {:induction false} ApplyChange(b: Builder, index: nat, p: Partial, delta: BlockDelta)
    requires ApplyDelta(p, delta).Ok?
    ensures Apply(WithBlock(b, index, p, false), BlockChanged(index, delta)) ==
          Ok(WithBlock(b, index, ApplyDelta(p, delta).value, false))
  {
    assert b.blocks[index := StreamingBlock(p, false)][index := StreamingBlock(ApplyDelta(p, delta).value, false)]
        == b.blocks[index := StreamingBlock(ApplyDelta(p, delta).value, false)];
  }

  function StartOf(block: ContentBlock): BlockStart {
    match block
    case Text(_) => StartText
    case Thinking(_, _, encrypted, id, provenance, redacted) => StartThinking(encrypted, id, provenance, redacted)
    case Image(source) => StartImage(source)
    case ToolUse(callId, name, _) => StartToolUse(callId, name)
    case ToolResult(toolUseId, content, isError) => StartToolResult(toolUseId, isError, Some(content))
    case HostedToolSearch(call) => StartToolSearch(call)
    case HostedWebSearch(call) => StartWebSearch(call)
    case ImageGeneration(call) => StartImageGeneration(call)
  }

  lemma {:induction false} ApplyOneChange(b: Builder, index: nat, p: Partial, delta: BlockDelta, p': Partial)
    requires ApplyDelta(p, delta) == Ok(p')
    ensures ApplyAll(WithBlock(b, index, p, false), Changes(index, [delta])) == Ok(WithBlock(b, index, p', false))
  {
    var event := BlockChanged(index, delta);
    assert Changes(index, [delta]) == [event] + [];
    ApplyChange(b, index, p, delta);
    ApplyThen(WithBlock(b, index, p, false), event, []);
  }

  lemma {:induction false} ApplyTwoChanges(b: Builder, index: nat, p: Partial, first: BlockDelta, p': Partial,
                                           second: BlockDelta, p'': Partial)
    requires ApplyDelta(p, first) == Ok(p') && ApplyDelta(p', second) == Ok(p'')
    ensures ApplyAll(WithBlock(b, index, p, false), Changes(index, [first, second])) ==
          Ok(WithBlock(b, index, p'', false))
  {
    assert Changes(index, [first, second]) == [BlockChanged(index, first)] + Changes(index, [second]);
    ApplyChange(b, index, p, first);
    ApplyThen(WithBlock(b, index, p, false), BlockChanged(index, first), Changes(index, [second]));
    ApplyOneChange(b, index, p', second, p'');
  }

  /** A printed text delta fills a block that has just begun. */
  lemma {:induction false} FirstDeltaFills(block: ContentBlock, show: Json -> string)
    requires |Deltas(block, show)| == 1
    ensures ApplyDelta(Begin(StartOf(block)), Deltas(block, show)[0]) == Ok(Received(block, show))
  {
    var text := Deltas(block, show)[0].text;
    assert "" + text == text;
  }

  lemma {:induction false} BothDeltasFill(block: ContentBlock, show: Json -> string)
    requires |Deltas(block, show)| == 2
    ensures var first, second := Deltas(block, show)[0], Deltas(block, show)[1];
            var p := Begin(StartOf(block));
            ApplyDelta(p, first).Ok? && ApplyDelta(ApplyDelta(p, first).value, second) == Ok(Received(block, show))
  {
    assert "" + block.thinking == block.thinking && "" + block.signature.value == block.signature.value;
  }

  lemma {:induction false} ApplyChanges(b: Builder, index: nat, block: ContentBlock, show: Json -> string)
    ensures ApplyAll(WithBlock(b, index, Begin(StartOf(block)), false), Changes(index, Deltas(block, show)))
         == Ok(WithBlock(b, index, Received(block, show), false))
  {
    var deltas, p := Deltas(block, show), Begin(StartOf(block));
    if |deltas| == 1 {
      assert deltas == [deltas[0]];
      FirstDeltaFills(block, show);
      ApplyOneChange(b, index, p, deltas[0], Received(block, show));
    } else if |deltas| == 2 {
      assert deltas == [deltas[0], deltas[1]];
      BothDeltasFill(block, show);
      ApplyTwoChanges(b, index, p, deltas[0], ApplyDelta(p, deltas[0]).value, deltas[1], Received(block, show));
    } else {
      assert Changes(index, deltas) == [] && p == Received(block, show);
    }
  }

  lemma {:induction false} BlockEventsAre(index: nat, block: ContentBlock, show: Json -> string)
    ensures BlockEvents(block, index, show)
         == [BlockStarted(index, StartOf(block))] + (Changes(index, Deltas(block, show)) + [BlockStopped(index)])
  {
  }

  /** A printed block is received whole. */
  lemma {:induction false} ApplyBlockEvents(b: Builder, index: nat, block: ContentBlock, show: Json -> string)
    ensures ApplyAll(b, BlockEvents(block, index, show)) == Ok(WithBlock(b, index, Received(block, show), true))
  {
    var changes := Changes(index, Deltas(block, show));
    BlockEventsAre(index, block, show);
    ApplyThen(b, BlockStarted(index, StartOf(block)), changes + [BlockStopped(index)]);
    var b0 := WithBlock(b, index, Begin(StartOf(block)), false);
    ApplyChanges(b, index, block, show);
    ApplyAllConcat(b0, changes, [BlockStopped(index)]);
    var b1 := WithBlock(b, index, Received(block, show), false);
    assert [BlockStopped(index)] == [BlockStopped(index)] + [];
    assert Apply(b1, BlockStopped(index)) == Ok(WithBlock(b, index, Received(block, show), true)) by {
      assert b1.blocks[index := StreamingBlock(Received(block, show), true)]
          == b.blocks[index := StreamingBlock(Received(block, show), true)];
    }
    ApplyThen(b1, BlockStopped(index), []);
  }

  /** Exactly the blocks of `content` are there, complete. */
  ghost predicate Holds(blocks: map<nat, StreamingBlock>, content: seq<ContentBlock>, show: Json -> string) {
    && (forall k :: k in blocks <==> 0 <= k < |content|)
    && (forall k :: 0 <= k < |content| ==> blocks[k] == StreamingBlock(Received(content[k], show), true))
  }

  lemma {:induction false} HoldsOneMore(blocks: map<nat, StreamingBlock>, content: seq<ContentBlock>,
                                        block: ContentBlock, show: Json -> string)
    requires Holds(blocks, content, show)
    ensures Holds(blocks[|content| := StreamingBlock(Received(block, show), true)], content + [block], show)
  {
  }

  lemma {:induction false} ApplyContentEvents(b: Builder, content: seq<ContentBlock>, show: Json -> string)
    requires b.blocks == map[]
    ensures ApplyAll(b, ContentEvents(content, show)).Ok?
    ensures var b' := ApplyAll(b, ContentEvents(content, show)).value;
            b' == b.(blocks := b'.blocks) && Holds(b'.blocks, content, show)
    decreases |content|
  {
    if content != [] {
      var front, n := content[..|content| - 1], |content| - 1;
      ApplyContentEvents(b, front, show);
      var b1 := ApplyAll(b, ContentEvents(front, show)).value;
      ApplyBlockEvents(b1, n, content[n], show);
      ApplyAllConcat(b, ContentEvents(front, show), BlockEvents(content[n], n, show));
      HoldsOneMore(b1.blocks, front, content[n], show);
      assert content == front + [content[n]];
      assert ApplyAll(b, ContentEvents(content, show)) == Ok(WithBlock(b1, n, Received(content[n], show), true));
    }
  }

  lemma {:induction false} ContentsOfHeld(blocks: map<nat, StreamingBlock>, content: seq<ContentBlock>,
                                          parse: Parser, show: Json -> string, n: nat)
    requires ReadsInputs(content, parse, show) && Holds(blocks, content, show) && n <= |content|
    ensures Contents(blocks, parse, n) == Ok(content[..n])
    decreases n
  {
    if n > 0 {
      ContentsOfHeld(blocks, content, parse, show, n - 1);
      assert IntoBlock(Received(content[n - 1], show), parse) == Ok(content[n - 1]);
      assert content[..n] == content[..n - 1] + [content[n - 1]];
    }
  }

  lemma {:induction false} ApplyEnd(b: Builder, stopReason: Option<string>, usage: Option<TokenUsage>)
    ensures ApplyAll(b, [MessageDelta(stopReason, usage), MessageStopped])
         == Ok(b.(stopReason := stopReason, usage := usage, stopped := true))
  {
    var delta := MessageDelta(stopReason, usage);
    assert [delta, MessageStopped] == [delta] + ([MessageStopped] + []);
    ApplyThen(b, delta, [MessageStopped] + []);
    ApplyThen(Apply(b, delta).value, MessageStopped, []);
  }

  /** Expanding any response into events and collecting them gives the response back. */
  lemma {:induction false} CollectUndoesPrint(r: Response, parse: Parser, show: Json -> string)
    requires ReadsInputs(r.content, parse, show)
    ensures Collected(IntoEvents(r, show), parse) == Ok(r)
  {
    var start, body := MessageStarted(r.id, r.model, r.role), ContentEvents(r.content, show);
    var end := [MessageDelta(r.stopReason, r.usage), MessageStopped];
    var b0 := Apply(EMPTY, start).value;
    ApplyContentEvents(b0, r.content, show);
    var b1 := ApplyAll(b0, body).value;
    var b3 := b1.(stopReason := r.stopReason, usage := r.usage, stopped := true);
    assert ApplyAll(EMPTY, IntoEvents(r, show)) == Ok(b3) by {
      assert IntoEvents(r, show) == [start] + (body + end);
      ApplyThen(EMPTY, start, body + end);
      ApplyAllConcat(b0, body, end);
      ApplyEnd(b1, r.stopReason, r.usage);
    }
    LimitOfRange(b3.blocks.Keys, |r.content|);
    ContentsOfHeld(b3.blocks, r.content, parse, show, |r.content|);
    assert r.content[..|r.content|] == r.content;
  }

  // ---------------------------------------------------------------- the program

  lemma {:induction false} LeastExists(keys: set<nat>, k: nat)
    requires k in keys
    ensures exists least :: least in keys && forall j :: j in keys ==> least <= j
    decreases k
  {
    if j :| j in keys && j < k {
      LeastExists(keys, j);
    }
  }

  class StreamingResponseBuilder {
    var id: Option<string>
    var model: Option<string>
    var role: Option<Role>
    var blocks: map<nat, StreamingBlock>
    var stopReason: Option<string>
    var usage: Option<TokenUsage>
    var stopped: bool

    ghost function Value(): Builder
      reads this
    {
      Builder(id, model, role, blocks, stopReason, usage, stopped)
    }

    constructor ()
      ensures Value() == EMPTY
    {
      id, model, role, blocks, stopReason, usage, stopped := None, None, None, map[], None, None, false;
    }

    /** Takes in one event; a rejected event changes nothing. */
    method Receive(event: Event) returns (r: Result<(), StreamError>)
      modifies this
      ensures match Apply(old(Value()), event)
              case Ok(b) => r == Ok(()) && Value() == b
              case Err(error) => r == Err(error) && Value() == old(Value())
    {
      r := Ok(());
      match event {
        case ResponseHeaders | ResponseCreated | ReasoningDelta =>
        case MessageStarted(i, m, ro) =>
          id, model, role := Some(i), Some(m), Some(ro);
        case BlockStarted(index, kind) =>
          blocks := blocks[index := StreamingBlock(Begin(kind), false)];
        case BlockChanged(index, delta) =>
          if index !in blocks {
            return Err(DeltaBeforeStart(index));
          }
          var partial := ApplyDelta(blocks[index].partial, delta);
          if partial.Err? {
            return Err(partial.error);
          }
          blocks := blocks[index := blocks[index].(partial := partial.value)];
        case BlockStopped(index) =>
          if index !in blocks {
            return Err(StopBeforeStart(index));
          }
          blocks := blocks[index := blocks[index].(complete := true)];
        case MessageDelta(reason, u) =>
          stopReason, usage := reason, u;
        case MessageStopped =>
          stopped := true;
      }
    }

    /** The content blocks in index order. */
    method BuildContents(parse: Parser) returns (r: Result<seq<ContentBlock>, StreamError>)
      ensures r == Contents(blocks, parse, Limit(blocks.Keys))
    {
      var content: seq<ContentBlock> := [];
      var remaining := blocks.Keys;
      ghost var done: nat := 0;
      while remaining != {}
        invariant remaining == set k | k in blocks && k >= done
        invariant Contents(blocks, parse, done) == Ok(content)
        decreases remaining
      {
        ghost var some :| some in remaining;
        LeastExists(remaining, some);
        var index :| index in remaining && forall j :: j in remaining ==> index <= j;
        assert forall k :: k in blocks && done <= k ==> k in remaining;
        ContentsSkips(blocks, parse, done, index);
        var block := blocks[index];
        if !block.complete {
          ContentsError(blocks, parse, index + 1, Limit(blocks.Keys));
          return Err(Incomplete(index));
        }
        var made := IntoBlock(block.partial, parse);
        if made.Err? {
          ContentsError(blocks, parse, index + 1, Limit(blocks.Keys));
          return Err(made.error);
        }
        content := content + [made.value];
        remaining := remaining - {index};
        done := index + 1;
      }
      assert forall k :: k in blocks && done <= k ==> k in remaining;
      if done <= Limit(blocks.Keys) {
        ContentsSkips(blocks, parse, done, Limit(blocks.Keys));
      } else {
        ContentsSkips(blocks, parse, Limit(blocks.Keys), done);
      }
      r := Ok(content);
    }

    method Finish(parse: Parser) returns (r: Result<Response, StreamError>)
      ensures r == Build(Value(), parse)
    {
      if !stopped { return Err(EndedEarly); }
      if id.None? { return Err(MissingId); }
      if model.None? { return Err(MissingModel); }
      if role.None? { return Err(MissingRole); }
      var content := BuildContents(parse);
      match content {
        case Err(error) => return Err(error);
        case Ok(blocks) => return Ok(Response(id.value, model.value, role.value, blocks, stopReason, usage));
      }
    }
  }

  /** Rebuilds a full response from an event stream. */
  method CollectResponse(events: seq<Event>, parse: Parser) returns (r: Result<Response, StreamError>)
    ensures r == Collected(events, parse)
  {
    var builder := new StreamingResponseBuilder();
    for k := 0 to |events|
      invariant ApplyAll(EMPTY, events[..k]) == Ok(builder.Value())
    {
      assert events[..k + 1][..k] == events[..k];
      var taken := builder.Receive(events[k]);
      if taken.Err? {
        ApplyAllFails(EMPTY, events, k + 1);
        return Err(taken.error);
      }
    }
    assert events[..|events|] == events;
    r := builder.Finish(parse);
  }
}
