/**
 What a streamed chat completion says, told by the fields of its chunks alone.

 A response has one block for the reasoning, one for the text and one for each
 tool call number, in the order in which the stream first speaks of them. `Tells`
 says so without the flat reading the decoder works on, it leaves no freedom
 (`TellsOnce`), and `OutcomeTells` says that it holds of whatever is collected.
 */
module ChatReading {
  import opened Base
  import opened Frames
  import opened Collector
  import opened ChatStream
  import opened ChatForward

  /** Every choice of every chunk, in order. */
  function ChoicesOf(chunks: seq<Chunk>): seq<Choice>
    decreases |chunks|
  {
    if chunks == [] then [] else ChoicesOf(chunks[..|chunks| - 1]) + chunks[|chunks| - 1].choices
  }

  // ---------------------------------------------------------------- what is said

  /** The arguments of the deltas numbered `n`, joined. */
  function ArgumentsSaid(calls: seq<ToolCallDelta>, n: nat): string
    decreases |calls|
  {
    if calls == [] then ""
    else
      var c := calls[|calls| - 1];
      ArgumentsSaid(calls[..|calls| - 1], n)
      + (if c.index == n && c.call.Some? && c.call.value.arguments.Some? then c.call.value.arguments.value else "")
  }

  function SaidBy(c: Choice, key: Key): string {
    match key
    case KReasoning =>
      if c.delta.reasoningContent.Some? then c.delta.reasoningContent.value
      else if c.delta.reasoning.Some? then c.delta.reasoning.value
      else ""
    case KWords => if c.delta.content.Some? then c.delta.content.value else ""
    case KCall(n) => ArgumentsSaid(c.delta.toolCalls, n)
  }

  /** Everything the choices say for one block, joined. */
  function Said(choices: seq<Choice>, key: Key): string
    decreases |choices|
  {
    if choices == [] then "" else Said(choices[..|choices| - 1], key) + SaidBy(choices[|choices| - 1], key)
  }

  /** The last reason to stop that any choice gives. */
  function FinishOf(choices: seq<Choice>): Option<string>
    decreases |choices|
  {
    if choices == [] then None
    else if choices[|choices| - 1].finishReason.Some? then choices[|choices| - 1].finishReason
    else FinishOf(choices[..|choices| - 1])
  }

  /** The last usage any chunk reports. */
  function UsageIn(chunks: seq<Chunk>): Option<ChatUsage>
    decreases |chunks|
  {
    if chunks == [] then None
    else if chunks[|chunks| - 1].usage.Some? then chunks[|chunks| - 1].usage
    else UsageIn(chunks[..|chunks| - 1])
  }

  /** Each count is the wire's count of that name; a count nested in an absent record is absent. */
  ghost predicate UsageTells(usage: Option<TokenUsage>, said: Option<ChatUsage>) {
    match (usage, said)
    case (Some(u), Some(w)) =>
      && u.inputTokens == w.promptTokens && u.outputTokens == w.completionTokens && u.totalTokens == w.totalTokens
      && u.cacheReadInputTokens == (if w.promptDetails.Some? then w.promptDetails.value else None)
      && u.reasoningTokens == (if w.completionDetails.Some? then w.completionDetails.value else None)
      && u.cacheCreationInputTokens.None? && u.thoughtsTokens.None? && u.toolInputTokens.None?
    case (None, None) => true
    case _ => false
  }

  // ---------------------------------------------------------------- where it is said

  /** A place in the stream: slot 0 of a choice is its reasoning, slot 1 its text, slot 2 + k its tool call delta k. */
  datatype Spot = Spot(choice: nat, slot: nat) {
    predicate Before(other: Spot) {
      choice < other.choice || (choice == other.choice && slot < other.slot)
    }
  }

  /** The block a slot speaks of. An empty text or reasoning speaks of none; a tool call delta always does. */
  function SlotKey(c: Choice, slot: nat): Option<Key> {
    if slot == 0 then (if SaidBy(c, KReasoning) == "" then None else Some(KReasoning))
    else if slot == 1 then (if SaidBy(c, KWords) == "" then None else Some(KWords))
    else if slot - 2 < |c.delta.toolCalls| then Some(KCall(c.delta.toolCalls[slot - 2].index))
    else None
  }

  function KeyAt(choices: seq<Choice>, spot: Spot): Option<Key> {
    if spot.choice < |choices| then SlotKey(choices[spot.choice], spot.slot) else None
  }

  /** The stream speaks of a block here, and did not before. */
  ghost predicate First(choices: seq<Choice>, spot: Spot) {
    && KeyAt(choices, spot).Some?
    && forall other: Spot :: other.Before(spot) ==> KeyAt(choices, other) != KeyAt(choices, spot)
  }

  ghost predicate Speaks(choices: seq<Choice>, spots: seq<Spot>, key: Key) {
    exists i :: 0 <= i < |spots| && KeyAt(choices, spots[i]) == Some(key)
  }

  /** `spots` is where each block is first spoken of, in the order of the stream. */
  ghost predicate Layout(choices: seq<Choice>, spots: seq<Spot>) {
    && (forall i, j :: 0 <= i < j < |spots| ==> spots[i].Before(spots[j]))
    && (forall i :: 0 <= i < |spots| ==> First(choices, spots[i]))
    && (forall spot: Spot :: KeyAt(choices, spot).Some? ==> Speaks(choices, spots, KeyAt(choices, spot).value))
  }

  /** The block at position `i`, first spoken of at `spot`. A tool call takes id and name from the delta there. */
  ghost predicate BlockTells(block: ContentBlock, i: nat, choices: seq<Choice>, spot: Spot, q: Request, parse: Parser)
    requires KeyAt(choices, spot).Some?
  {
    match KeyAt(choices, spot).value
    case KReasoning =>
      block == Thinking(Said(choices, KReasoning), None, None, None,
                        Some(Provenance(q.provider, q.model, "open_ai_encrypted")), false)
    case KWords => block == Text(Said(choices, KWords))
    case KCall(n) =>
      var c := choices[spot.choice].delta.toolCalls[spot.slot - 2];
      && block.ToolUse?
      && block.callId == (if c.id.Some? then c.id.value else "call_" + Decimal(i))
      && block.name == (if c.call.Some? && c.call.value.name.Some? then c.call.value.name.value else "")
      && parse(Said(choices, KCall(n))) == Some(block.input)
  }

  ghost predicate BlocksTell(content: seq<ContentBlock>, choices: seq<Choice>, spots: seq<Spot>, q: Request,
                             parse: Parser)
    requires Layout(choices, spots)
  {
    && |content| == |spots|
    && forall i :: 0 <= i < |spots| ==> BlockTells(content[i], i, choices, spots[i], q, parse)
  }

  ghost predicate ContentTells(content: seq<ContentBlock>, choices: seq<Choice>, q: Request, parse: Parser) {
    exists spots :: Layout(choices, spots) && BlocksTell(content, choices, spots, q, parse)
  }

  /** The response is the one the chunks speak of. */
  ghost predicate Tells(r: Response, chunks: seq<Chunk>, q: Request, parse: Parser) {
    && r.id == (if chunks != [] && chunks[0].id.Some? then chunks[0].id.value else "")
    && r.model == (if chunks != [] && chunks[0].model.Some? then chunks[0].model.value else q.model)
    && r.role == Assistant
    && ContentTells(r.content, ChoicesOf(chunks), q, parse)
    && r.stopReason == FinishOf(ChoicesOf(chunks))
    && UsageTells(r.usage, UsageIn(chunks))
  }

  /** Every tool call's arguments, joined, are JSON. */
  ghost predicate AllJson(choices: seq<Choice>, parse: Parser) {
    forall spot: Spot :: KeyAt(choices, spot).Some? && KeyAt(choices, spot).value.KCall? ==>
      parse(Said(choices, KeyAt(choices, spot).value)).Some?
  }

  // ---------------------------------------------------------------- the texts

  lemma {:induction false} GatheredConcat(xs: seq<Wire>, ys: seq<Wire>, key: Key)
    ensures Gathered(xs + ys, key) == Gathered(xs, key) + Gathered(ys, key)
    decreases |ys|
  {
    if ys == [] {
      assert xs + ys == xs;
    } else {
      var front, w := ys[..|ys| - 1], ys[|ys| - 1];
      var last := if KeyOf(w) == Some(key) then TextOf(w) else "";
      assert Gathered(xs + front, key) == Gathered(xs, key) + Gathered(front, key) by {
        GatheredConcat(xs, front, key);
      }
      assert Gathered(xs + ys, key) == Gathered(xs + front, key) + last by {
        SplitLast(xs, ys);
        GatheredAppend(xs + front, w, key);
      }
      assert Gathered(ys, key) == Gathered(front, key) + last;
      Regroup(Gathered(xs, key), Gathered(front, key), last);
    }
  }

  lemma {:induction false} GatheredFour(a: seq<Wire>, b: seq<Wire>, c: seq<Wire>, d: seq<Wire>, key: Key)
    ensures Gathered(a + b + c + d, key) == Gathered(a, key) + Gathered(b, key) + Gathered(c, key) + Gathered(d, key)
  {
    GatheredConcat(a, b, key);
    GatheredConcat(a + b, c, key);
    GatheredConcat(a + b + c, d, key);
  }

  lemma {:induction false} GatheredOne(w: Wire, key: Key)
    ensures Gathered([w], key) == if KeyOf(w) == Some(key) then TextOf(w) else ""
  {
    assert [w][..0] == [];
  }

  lemma {:induction false} GatheredCalls(calls: seq<ToolCallDelta>, key: Key)
    ensures Gathered(CallWires(calls), key) == if key.KCall? then ArgumentsSaid(calls, key.number) else ""
    decreases |calls|
  {
    if calls != [] {
      var front := calls[..|calls| - 1];
      GatheredCalls(front, key);
      assert CallWires(calls)[..|calls| - 1] == CallWires(front);
    }
  }

  function ReasoningPart(c: Choice): (r: seq<Wire>)
    ensures forall i :: 0 <= i < |r| ==> KeyOf(r[i]).Some?
  {
    if ReasoningText(c.delta) == "" then [] else [Reasoning(ReasoningText(c.delta))]
  }

  function WordsPart(c: Choice): (r: seq<Wire>)
    ensures forall i :: 0 <= i < |r| ==> KeyOf(r[i]).Some?
  {
    if OrElse(c.delta.content, "") == "" then [] else [Words(c.delta.content.value)]
  }

  function EndPart(c: Choice): seq<Wire> {
    if c.finishReason.None? then [] else [Ended(c.finishReason.value)]
  }

  lemma {:induction false} ChoiceParts(c: Choice)
    ensures WiresOfChoice(c) == ReasoningPart(c) + WordsPart(c) + CallWires(c.delta.toolCalls) + EndPart(c)
  {
  }

  lemma {:induction false} GatheredParts(c: Choice, key: Key)
    ensures Gathered(ReasoningPart(c), key) == if key.KReasoning? then SaidBy(c, key) else ""
    ensures Gathered(WordsPart(c), key) == if key.KWords? then SaidBy(c, key) else ""
    ensures Gathered(EndPart(c), key) == ""
  {
    GatheredOne(Reasoning(ReasoningText(c.delta)), key);
    GatheredOne(Words(OrElse(c.delta.content, "")), key);
    GatheredOne(Ended(OrElse(c.finishReason, "")), key);
  }

  lemma {:induction false} GatheredChoice(c: Choice, key: Key)
    ensures Gathered(WiresOfChoice(c), key) == SaidBy(c, key)
  {
    var calls := CallWires(c.delta.toolCalls);
    var reasoning, words, end := ReasoningPart(c), WordsPart(c), EndPart(c);
    assert Gathered(WiresOfChoice(c), key) ==
      Gathered(reasoning, key) + Gathered(words, key) + Gathered(calls, key) + Gathered(end, key) by {
      ChoiceParts(c);
      GatheredFour(reasoning, words, calls, end, key);
    }
    GatheredParts(c, key);
    GatheredCalls(c.delta.toolCalls, key);
    Padded(SaidBy(c, key));
  }

  lemma {:induction false} Padded(s: string)
    ensures s + "" + "" + "" == s && "" + s + "" + "" == s && "" + "" + s + "" == s
  {
  }

  lemma {:induction false} GatheredChoices(choices: seq<Choice>, key: Key)
    ensures Gathered(WiresOfChoices(choices), key) == Said(choices, key)
    decreases |choices|
  {
    if choices != [] {
      var front, c := choices[..|choices| - 1], choices[|choices| - 1];
      GatheredChoices(front, key);
      GatheredChoice(c, key);
      GatheredConcat(WiresOfChoices(front), WiresOfChoice(c), key);
    }
  }

  lemma {:induction false} SaidAppend(choices: seq<Choice>, c: Choice, key: Key)
    ensures Said(choices + [c], key) == Said(choices, key) + SaidBy(c, key)
  {
    assert (choices + [c])[..|choices|] == choices;
  }

  lemma {:induction false} SaidConcat(xs: seq<Choice>, ys: seq<Choice>, key: Key)
    ensures Said(xs + ys, key) == Said(xs, key) + Said(ys, key)
    decreases |ys|
  {
    if ys == [] {
      assert xs + ys == xs;
    } else {
      var front, c := ys[..|ys| - 1], ys[|ys| - 1];
      assert Said(xs + front, key) == Said(xs, key) + Said(front, key) by { SaidConcat(xs, front, key); }
      assert Said(xs + ys, key) == Said(xs + front, key) + SaidBy(c, key) by {
        SplitLast(xs, ys);
        SaidAppend(xs + front, c, key);
      }
      assert Said(ys, key) == Said(front, key) + SaidBy(c, key);
      Regroup(Said(xs, key), Said(front, key), SaidBy(c, key));
    }
  }

  function SpentWires(c: Chunk): seq<Wire> {
    if c.usage.None? then [] else [Spent(TokenUsageOf(c.usage.value))]
  }

  /** What the decoder gathers for a block is what the fields say for it. */
  lemma {:induction false} GatheredIsSaid(chunks: seq<Chunk>, key: Key)
    ensures Gathered(WiresOf(chunks), key) == Said(ChoicesOf(chunks), key)
    decreases |chunks|
  {
    if chunks != [] {
      var front, c := chunks[..|chunks| - 1], chunks[|chunks| - 1];
      assert Gathered(WiresOf(front), key) == Said(ChoicesOf(front), key) by { GatheredIsSaid(front, key); }
      assert Gathered(WiresOfChunk(c), key) == Said(c.choices, key) by { GatheredChunk(c, key); }
      assert Said(ChoicesOf(chunks), key) == Said(ChoicesOf(front), key) + Said(c.choices, key) by {
        SaidConcat(ChoicesOf(front), c.choices, key);
      }
      GatheredConcat(WiresOf(front), WiresOfChunk(c), key);
    }
  }

  lemma {:induction false} GatheredChunk(c: Chunk, key: Key)
    ensures Gathered(WiresOfChunk(c), key) == Said(c.choices, key)
  {
    assert Gathered(SpentWires(c), key) == "" by {
      if c.usage.Some? {
        GatheredOne(Spent(TokenUsageOf(c.usage.value)), key);
      }
    }
    GatheredConcat(SpentWires(c), WiresOfChoices(c.choices), key);
    GatheredChoices(c.choices, key);
    assert "" + Said(c.choices, key) == Said(c.choices, key);
  }

  // ---------------------------------------------------------------- reason and usage

  lemma {:induction false} LastsConcat(xs: seq<Wire>, ys: seq<Wire>)
    ensures LastReason(xs + ys) == if LastReason(ys).Some? then LastReason(ys) else LastReason(xs)
    ensures LastUsage(xs + ys) == if LastUsage(ys).Some? then LastUsage(ys) else LastUsage(xs)
    decreases |ys|
  {
    if ys == [] {
      assert xs + ys == xs;
    } else {
      LastsConcat(xs, ys[..|ys| - 1]);
      assert (xs + ys)[..|xs + ys| - 1] == xs + ys[..|ys| - 1];
    }
  }

  lemma {:induction false} ContentHasNoLasts(ws: seq<Wire>)
    requires forall i :: 0 <= i < |ws| ==> KeyOf(ws[i]).Some?
    ensures LastReason(ws).None? && LastUsage(ws).None?
    decreases |ws|
  {
    if ws != [] {
      ContentHasNoLasts(ws[..|ws| - 1]);
    }
  }

  lemma {:induction false} LastsOfChoice(c: Choice)
    ensures LastReason(WiresOfChoice(c)) == c.finishReason && LastUsage(WiresOfChoice(c)).None?
  {
    var said := KeyedOf(c);
    ChoiceParts(c);
    ContentHasNoLasts(said);
    LastsConcat(said, EndPart(c));
  }

  lemma {:induction false} LastsOfChoices(choices: seq<Choice>)
    ensures LastReason(WiresOfChoices(choices)) == FinishOf(choices) && LastUsage(WiresOfChoices(choices)).None?
    decreases |choices|
  {
    if choices != [] {
      var front, c := choices[..|choices| - 1], choices[|choices| - 1];
      LastsOfChoices(front);
      LastsOfChoice(c);
      LastsConcat(WiresOfChoices(front), WiresOfChoice(c));
    }
  }

  lemma {:induction false} FinishConcat(xs: seq<Choice>, ys: seq<Choice>)
    ensures FinishOf(xs + ys) == if FinishOf(ys).Some? then FinishOf(ys) else FinishOf(xs)
    decreases |ys|
  {
    if ys == [] {
      assert xs + ys == xs;
    } else {
      FinishConcat(xs, ys[..|ys| - 1]);
      assert (xs + ys)[..|xs + ys| - 1] == xs + ys[..|ys| - 1];
    }
  }

  lemma {:induction false} LastsAreTold(chunks: seq<Chunk>)
    ensures LastReason(WiresOf(chunks)) == FinishOf(ChoicesOf(chunks))
    ensures UsageTells(LastUsage(WiresOf(chunks)), UsageIn(chunks))
    decreases |chunks|
  {
    if chunks != [] {
      var front, c := chunks[..|chunks| - 1], chunks[|chunks| - 1];
      LastsAreTold(front);
      FinishConcat(ChoicesOf(front), c.choices);
      LastsOfChunk(c);
      LastsConcat(WiresOf(front), WiresOfChunk(c));
    }
  }

  lemma {:induction false} LastsOfChunk(c: Chunk)
    ensures LastReason(WiresOfChunk(c)) == FinishOf(c.choices)
    ensures LastUsage(WiresOfChunk(c)).Some? <==> c.usage.Some?
    ensures UsageTells(LastUsage(WiresOfChunk(c)), c.usage)
  {
    LastsOfChoices(c.choices);
    LastsConcat(SpentWires(c), WiresOfChoices(c.choices));
  }

  // ---------------------------------------------------------------- the order of the blocks

  /** The deltas of a choice that belong to a block. */
  function KeyedOf(c: Choice): (r: seq<Wire>)
    ensures forall i :: 0 <= i < |r| ==> KeyOf(r[i]).Some?
  {
    ReasoningPart(c) + WordsPart(c) + CallWires(c.delta.toolCalls)
  }

  function Keyed(ws: seq<Wire>): seq<Wire>
    decreases |ws|
  {
    if ws == [] then []
    else Keyed(ws[..|ws| - 1]) + (if KeyOf(ws[|ws| - 1]).Some? then [ws[|ws| - 1]] else [])
  }

  lemma {:induction false} KeyedConcat(xs: seq<Wire>, ys: seq<Wire>)
    ensures Keyed(xs + ys) == Keyed(xs) + Keyed(ys)
    decreases |ys|
  {
    if ys == [] {
      assert xs + ys == xs;
    } else {
      KeyedConcat(xs, ys[..|ys| - 1]);
      assert (xs + ys)[..|xs + ys| - 1] == xs + ys[..|ys| - 1];
    }
  }

  lemma {:induction false} KeyedAlready(ws: seq<Wire>)
    requires forall i :: 0 <= i < |ws| ==> KeyOf(ws[i]).Some?
    ensures Keyed(ws) == ws
    decreases |ws|
  {
    if ws != [] {
      KeyedAlready(ws[..|ws| - 1]);
    }
  }

  lemma {:induction false} OpeningsOfKeyed(ws: seq<Wire>)
    ensures Openings(Keyed(ws)) == Openings(ws)
    decreases |ws|
  {
    if ws != [] {
      var front, w := ws[..|ws| - 1], ws[|ws| - 1];
      OpeningsOfKeyed(front);
      if KeyOf(w).Some? {
        OpeningsAppend(Keyed(front), w);
      } else {
        assert Keyed(front) + [] == Keyed(front);
      }
    }
  }

  /** A delta and the place it was read at. */
  datatype Located = Located(spot: Spot, wire: Wire)

  function LocatedCalls(calls: seq<ToolCallDelta>, j: nat): (r: seq<Located>)
    ensures |r| == |calls|
    ensures forall k :: 0 <= k < |r| ==> r[k] == Located(Spot(j, 2 + k), CallWire(calls[k]))
  {
    seq(|calls|, k requires 0 <= k < |calls| => Located(Spot(j, 2 + k), CallWire(calls[k])))
  }

  function LocatedReasoning(c: Choice, j: nat): seq<Located> {
    if ReasoningText(c.delta) == "" then [] else [Located(Spot(j, 0), Reasoning(ReasoningText(c.delta)))]
  }

  function LocatedWords(c: Choice, j: nat): seq<Located> {
    if OrElse(c.delta.content, "") == "" then [] else [Located(Spot(j, 1), Words(c.delta.content.value))]
  }

  function LocatedOf(c: Choice, j: nat): (r: seq<Located>) {
    LocatedReasoning(c, j) + LocatedWords(c, j) + LocatedCalls(c.delta.toolCalls, j)
  }

  function AllLocated(choices: seq<Choice>): seq<Located>
    decreases |choices|
  {
    if choices == [] then []
    else AllLocated(choices[..|choices| - 1]) + LocatedOf(choices[|choices| - 1], |choices| - 1)
  }

  function WiresIn(ls: seq<Located>): (r: seq<Wire>)
    ensures |r| == |ls| && forall i :: 0 <= i < |r| ==> r[i] == ls[i].wire
  {
    seq(|ls|, i requires 0 <= i < |ls| => ls[i].wire)
  }

  lemma {:induction false} WiresInConcat(xs: seq<Located>, ys: seq<Located>)
    ensures WiresIn(xs + ys) == WiresIn(xs) + WiresIn(ys)
  {
  }

  lemma {:induction false} LocatedParts(c: Choice, j: nat)
    ensures WiresIn(LocatedReasoning(c, j)) == ReasoningPart(c) && WiresIn(LocatedWords(c, j)) == WordsPart(c)
    ensures WiresIn(LocatedCalls(c.delta.toolCalls, j)) == CallWires(c.delta.toolCalls)
  {
  }

  lemma {:induction false} KeyedChoice(c: Choice)
    ensures Keyed(WiresOfChoice(c)) == KeyedOf(c)
  {
    var said, end := KeyedOf(c), EndPart(c);
    assert Keyed(said + end) == Keyed(said) + Keyed(end) by { KeyedConcat(said, end); }
    assert Keyed(said) == said by { KeyedAlready(said); }
    assert Keyed(end) == [] by {
      if c.finishReason.Some? {
        assert end[..0] == [];
      }
    }
    assert WiresOfChoice(c) == said + end by { ChoiceParts(c); }
    assert said + [] == said;
  }

  lemma {:induction false} LocatedChoice(c: Choice, j: nat)
    ensures Keyed(WiresOfChoice(c)) == WiresIn(LocatedOf(c, j))
  {
    var a, b, calls := LocatedReasoning(c, j), LocatedWords(c, j), LocatedCalls(c.delta.toolCalls, j);
    KeyedChoice(c);
    LocatedParts(c, j);
    assert WiresIn(a + b) == WiresIn(a) + WiresIn(b) by { WiresInConcat(a, b); }
    assert WiresIn(a + b + calls) == WiresIn(a + b) + WiresIn(calls) by { WiresInConcat(a + b, calls); }
  }

  lemma {:induction false} LocatedChoices(before: seq<Choice>, choices: seq<Choice>)
    ensures WiresIn(AllLocated(before + choices)) == WiresIn(AllLocated(before)) + Keyed(WiresOfChoices(choices))
    decreases |choices|
  {
    if choices == [] {
      assert before + choices == before;
      assert Keyed(WiresOfChoices(choices)) == [];
    } else {
      var front, c := choices[..|choices| - 1], choices[|choices| - 1];
      LocatedChoices(before, front);
      SplitLast(before, choices);
      LocatedOneMore(before + front, c);
      KeyedOneMore(choices);
      JoinLast(WiresIn(AllLocated(before + choices)), WiresIn(AllLocated(before)), Keyed(WiresOfChoices(front)),
               Keyed(WiresOfChoice(c)));
    }
  }

  lemma {:induction false} JoinLast(whole: seq<Wire>, a: seq<Wire>, b: seq<Wire>, c: seq<Wire>)
    requires whole == (a + b) + c
    ensures whole == a + (b + c)
  {
  }

  lemma {:induction false} KeyedOneMore(choices: seq<Choice>)
    requires choices != []
    ensures Keyed(WiresOfChoices(choices)) ==
            Keyed(WiresOfChoices(choices[..|choices| - 1])) + Keyed(WiresOfChoice(choices[|choices| - 1]))
  {
    KeyedConcat(WiresOfChoices(choices[..|choices| - 1]), WiresOfChoice(choices[|choices| - 1]));
  }

  lemma {:induction false} LocatedOneMore(choices: seq<Choice>, c: Choice)
    ensures WiresIn(AllLocated(choices + [c])) == WiresIn(AllLocated(choices)) + Keyed(WiresOfChoice(c))
  {
    var j := |choices|;
    assert (choices + [c])[..j] == choices && (choices + [c])[j] == c;
    assert AllLocated(choices + [c]) == AllLocated(choices) + LocatedOf(c, j);
    WiresInConcat(AllLocated(choices), LocatedOf(c, j));
    LocatedChoice(c, j);
  }

  lemma {:induction false} KeyedSpent(c: Chunk)
    ensures Keyed(WiresOfChunk(c)) == Keyed(WiresOfChoices(c.choices))
  {
    KeyedConcat(SpentWires(c), WiresOfChoices(c.choices));
    assert Keyed(SpentWires(c)) == [] by {
      if c.usage.Some? {
        assert SpentWires(c)[..0] == [];
      }
    }
    assert [] + Keyed(WiresOfChoices(c.choices)) == Keyed(WiresOfChoices(c.choices));
  }

  /** The deltas the decoder reads off the chunks are those found by going through the choices spot by spot. */
  lemma {:induction false} LocatedIsKeyed(chunks: seq<Chunk>)
    ensures Keyed(WiresOf(chunks)) == WiresIn(AllLocated(ChoicesOf(chunks)))
    decreases |chunks|
  {
    if chunks != [] {
      var front, c := chunks[..|chunks| - 1], chunks[|chunks| - 1];
      LocatedIsKeyed(front);
      KeyedConcat(WiresOf(front), WiresOfChunk(c));
      KeyedSpent(c);
      LocatedChoices(ChoicesOf(front), c.choices);
    }
  }

  ghost predicate Finds(ls: seq<Located>, spot: Spot) {
    exists i :: 0 <= i < |ls| && ls[i].spot == spot
  }

  ghost predicate SpotSound(choices: seq<Choice>, l: Located) {
    && KeyOf(l.wire).Some? && KeyOf(l.wire) == KeyAt(choices, l.spot)
    && (l.spot.slot >= 2 ==> l.wire == CallWire(choices[l.spot.choice].delta.toolCalls[l.spot.slot - 2]))
  }

  /** The deltas are listed in the order of the stream, each under its key, and none is left out. */
  ghost predicate Sound(choices: seq<Choice>, ls: seq<Located>) {
    && (forall i, j :: 0 <= i < j < |ls| ==> ls[i].spot.Before(ls[j].spot))
    && (forall i :: 0 <= i < |ls| ==> SpotSound(choices, ls[i]))
    && (forall spot: Spot :: KeyAt(choices, spot).Some? ==> Finds(ls, spot))
  }

  lemma {:induction false} LocatedCount(c: Choice, j: nat)
    ensures var ls := LocatedOf(c, j);
            var a := if SaidBy(c, KReasoning) == "" then 0 else 1;
            var b := if SaidBy(c, KWords) == "" then 0 else 1;
            && |ls| == a + b + |c.delta.toolCalls|
            && (a == 1 ==> ls[0] == Located(Spot(j, 0), Reasoning(SaidBy(c, KReasoning))))
            && (b == 1 ==> ls[a] == Located(Spot(j, 1), Words(SaidBy(c, KWords))))
            && forall i :: a + b <= i < |ls| ==>
                 ls[i] == Located(Spot(j, 2 + i - a - b), CallWire(c.delta.toolCalls[i - a - b]))
  {
  }

  /** One choice's deltas, seen from anywhere the choice stands. */
  lemma {:induction false} ChoiceSound(choices: seq<Choice>, j: nat, i: nat)
    requires j < |choices| && i < |LocatedOf(choices[j], j)|
    ensures LocatedOf(choices[j], j)[i].spot.choice == j && SpotSound(choices, LocatedOf(choices[j], j)[i])
  {
    SlotIsSound(choices[j], j, i);
  }

  ghost predicate SlotSound(c: Choice, l: Located) {
    && KeyOf(l.wire).Some? && KeyOf(l.wire) == SlotKey(c, l.spot.slot)
    && (l.spot.slot >= 2 ==> l.wire == CallWire(c.delta.toolCalls[l.spot.slot - 2]))
  }

  lemma {:induction false} SlotIsSound(c: Choice, j: nat, i: nat)
    requires i < |LocatedOf(c, j)|
    ensures LocatedOf(c, j)[i].spot.choice == j && SlotSound(c, LocatedOf(c, j)[i])
  {
    var l := LocatedOf(c, j)[i];
    var a := if SaidBy(c, KReasoning) == "" then 0 else 1;
    var b := if SaidBy(c, KWords) == "" then 0 else 1;
    LocatedCount(c, j);
    if i >= a + b {
      var k := i - a - b;
      assert l == Located(Spot(j, 2 + k), CallWire(c.delta.toolCalls[k]));
      CallSlot(c, j, k);
    } else if i < a {
      assert l == Located(Spot(j, 0), Reasoning(SaidBy(c, KReasoning)));
    } else {
      assert l == Located(Spot(j, 1), Words(SaidBy(c, KWords)));
    }
  }

  lemma {:induction false} CallSlot(c: Choice, j: nat, k: nat)
    requires k < |c.delta.toolCalls|
    ensures SlotSound(c, Located(Spot(j, 2 + k), CallWire(c.delta.toolCalls[k])))
  {
  }

  lemma {:induction false} ChoiceInOrder(c: Choice, j: nat, k: nat, i: nat)
    requires k < i < |LocatedOf(c, j)|
    ensures LocatedOf(c, j)[k].spot.slot < LocatedOf(c, j)[i].spot.slot
  {
    LocatedCount(c, j);
  }

  lemma {:induction false} ChoiceFinds(choices: seq<Choice>, spot: Spot)
    requires KeyAt(choices, spot).Some?
    ensures Finds(LocatedOf(choices[spot.choice], spot.choice), spot)
  {
    var c, ls := choices[spot.choice], LocatedOf(choices[spot.choice], spot.choice);
    LocatedCount(c, spot.choice);
    var a := if SaidBy(c, KReasoning) == "" then 0 else 1;
    var b := if SaidBy(c, KWords) == "" then 0 else 1;
    var i := if spot.slot == 0 then 0 else if spot.slot == 1 then a else a + b + (spot.slot - 2);
    assert ls[i].spot == spot;
  }

  lemma {:induction false} SpotStays(choices: seq<Choice>, c: Choice, l: Located)
    requires SpotSound(choices, l)
    ensures SpotSound(choices + [c], l)
  {
  }

  lemma {:induction false} AllLocatedSound(choices: seq<Choice>)
    ensures Sound(choices, AllLocated(choices))
    ensures forall i :: 0 <= i < |AllLocated(choices)| ==> AllLocated(choices)[i].spot.choice < |choices|
    decreases |choices|
  {
    if choices != [] {
      var front, j := choices[..|choices| - 1], |choices| - 1;
      var before, last := AllLocated(front), LocatedOf(choices[j], j);
      AllLocatedSound(front);
      assert choices == front + [choices[j]];
      forall i | 0 <= i < |last| ensures last[i].spot.choice == j && SpotSound(choices, last[i]) {
        ChoiceSound(choices, j, i);
      }
      forall k, i | 0 <= k < i < |last| ensures last[k].spot.slot < last[i].spot.slot {
        ChoiceInOrder(choices[j], j, k, i);
      }
      forall i | 0 <= i < |before| ensures SpotSound(choices, before[i]) {
        SpotStays(front, choices[j], before[i]);
      }
      forall spot: Spot | KeyAt(choices, spot).Some? ensures Finds(before + last, spot) {
        if spot.choice < j {
          assert KeyAt(front, spot) == KeyAt(choices, spot);
          FindsLeft(before, last, spot);
        } else {
          ChoiceFinds(choices, spot);
          FindsRight(before, last, spot);
        }
      }
    }
  }

  lemma {:induction false} FindsLeft(xs: seq<Located>, ys: seq<Located>, spot: Spot)
    requires Finds(xs, spot)
    ensures Finds(xs + ys, spot)
  {
    var i :| 0 <= i < |xs| && xs[i].spot == spot;
    assert (xs + ys)[i] == xs[i];
  }

  lemma {:induction false} FindsRight(xs: seq<Located>, ys: seq<Located>, spot: Spot)
    requires Finds(ys, spot)
    ensures Finds(xs + ys, spot)
  {
    var i :| 0 <= i < |ys| && ys[i].spot == spot;
    assert (xs + ys)[|xs| + i] == ys[i];
  }

  /** When each block was opened: the positions of the openings among the deltas. */
  ghost function Times(ws: seq<Wire>): (r: seq<nat>)
    ensures |r| == |Openings(ws)|
    ensures forall i :: 0 <= i < |r| ==> r[i] < |ws| && ws[r[i]] == Openings(ws)[i]
    ensures forall i, j :: 0 <= i < j < |r| ==> r[i] < r[j]
    decreases |ws|
  {
    if ws == [] then []
    else
      var before := Times(ws[..|ws| - 1]);
      if |Openings(ws)| > |before| then before + [|ws| - 1] else before
  }

  /** Every delta's block has an opening. */
  lemma {:induction false} SeenIsOpened(ws: seq<Wire>, t: nat)
    requires t < |ws| && KeyOf(ws[t]).Some?
    ensures PlaceOf(Openings(ws), KeyOf(ws[t]).value).Some?
    decreases |ws|
  {
    var front, w := ws[..|ws| - 1], ws[|ws| - 1];
    assert ws == front + [w];
    OpeningsAppend(front, w);
    if t < |front| {
      SeenIsOpened(front, t);
    }
    PlaceOfAppend(Openings(front), w, KeyOf(ws[t]).value);
  }

  /** An opening is the first delta of its block. */
  lemma {:induction false} OpeningIsFirst(ws: seq<Wire>, i: nat, u: nat)
    requires i < |Openings(ws)| && u < Times(ws)[i]
    ensures KeyOf(ws[u]) != KeyOf(Openings(ws)[i])
    decreases |ws|
  {
    var front, w := ws[..|ws| - 1], ws[|ws| - 1];
    assert ws == front + [w];
    assert Openings(ws) == if KeyOf(w).Some? && PlaceOf(Openings(front), KeyOf(w).value).None?
                           then Openings(front) + [w] else Openings(front) by {
      OpeningsAppend(front, w);
    }
    if i < |Openings(front)| {
      assert Times(ws)[i] == Times(front)[i] && front[u] == ws[u];
      OpeningIsFirst(front, i, u);
    } else {
      assert Openings(ws)[i] == w && front[u] == ws[u];
      if KeyOf(front[u]).Some? {
        SeenIsOpened(front, u);
      }
    }
  }

  ghost function SpotsOf(choices: seq<Choice>): (r: seq<Spot>)
    ensures var ws := WiresIn(AllLocated(choices));
            && |r| == |Openings(ws)|
            && forall i :: 0 <= i < |r| ==> r[i] == AllLocated(choices)[Times(ws)[i]].spot
  {
    var ws := WiresIn(AllLocated(choices));
    seq(|Openings(ws)|, i requires 0 <= i < |Openings(ws)| => AllLocated(choices)[Times(ws)[i]].spot)
  }

  /** A spot before another comes before it in the list. */
  lemma {:induction false} SpotOrder(choices: seq<Choice>, ls: seq<Located>, u: nat, t: nat)
    requires Sound(choices, ls) && u < |ls| && t < |ls| && ls[u].spot.Before(ls[t].spot)
    ensures u < t
  {
  }

  lemma {:induction false} SpotIsSound(choices: seq<Choice>, t: nat)
    requires t < |AllLocated(choices)|
    ensures SpotSound(choices, AllLocated(choices)[t])
  {
    AllLocatedSound(choices);
  }

  lemma {:induction false} NotBefore(choices: seq<Choice>, i: nat, other: Spot)
    requires i < |SpotsOf(choices)| && other.Before(SpotsOf(choices)[i])
    ensures KeyAt(choices, other) != KeyOf(Openings(WiresIn(AllLocated(choices)))[i])
  {
    if KeyAt(choices, other).Some? {
      var ls := AllLocated(choices);
      var ws := WiresIn(ls);
      assert Sound(choices, ls) by { AllLocatedSound(choices); }
      assert Finds(ls, other);
      var u :| 0 <= u < |ls| && ls[u].spot == other;
      assert KeyOf(ws[u]) == KeyAt(choices, other) by { SpotIsSound(choices, u); }
      SpotOrder(choices, ls, u, Times(ws)[i]);
      OpeningIsFirst(ws, i, u);
    }
  }

  lemma {:induction false} SpotIsFirst(choices: seq<Choice>, i: nat)
    requires i < |SpotsOf(choices)|
    ensures First(choices, SpotsOf(choices)[i])
    ensures KeyAt(choices, SpotsOf(choices)[i]) == KeyOf(Openings(WiresIn(AllLocated(choices)))[i])
  {
    var ws, spot := WiresIn(AllLocated(choices)), SpotsOf(choices)[i];
    assert KeyAt(choices, spot) == KeyOf(Openings(ws)[i]) && KeyAt(choices, spot).Some? by {
      SpotIsSound(choices, Times(ws)[i]);
    }
    forall other: Spot | other.Before(spot) ensures KeyAt(choices, other) != KeyAt(choices, spot) {
      NotBefore(choices, i, other);
    }
  }

  lemma {:induction false} SpotsLayOut(choices: seq<Choice>)
    ensures Layout(choices, SpotsOf(choices))
  {
    var ls, spots := AllLocated(choices), SpotsOf(choices);
    var ws := WiresIn(ls);
    AllLocatedSound(choices);
    forall i | 0 <= i < |spots| ensures First(choices, spots[i]) {
      SpotIsFirst(choices, i);
    }
    forall spot: Spot | KeyAt(choices, spot).Some? ensures Speaks(choices, spots, KeyAt(choices, spot).value) {
      assert Finds(ls, spot);
      var u :| 0 <= u < |ls| && ls[u].spot == spot;
      assert SpotSound(choices, ls[u]);
      SeenIsOpened(ws, u);
      var i := PlaceOf(Openings(ws), KeyOf(ws[u]).value).value;
      SpotIsFirst(choices, i);
    }
  }

  /** A block as the decoder drafts it is the block its first spot tells. */
  lemma {:induction false} DraftTells(chunks: seq<Chunk>, i: nat, q: Request, parse: Parser)
    requires i < |Drafts(WiresOf(chunks))|
    ensures var choices, promised := ChoicesOf(chunks), PromisedAt(Drafts(WiresOf(chunks)), i, q, parse);
            i < |SpotsOf(choices)| && PromiseTells(promised, i, choices, SpotsOf(choices)[i], q, parse)
  {
    var choices, ws := ChoicesOf(chunks), WiresOf(chunks);
    var ls := AllLocated(choices);
    assert Openings(WiresIn(ls)) == Openings(ws) by {
      LocatedIsKeyed(chunks);
      OpeningsOfKeyed(ws);
    }
    var t := Times(WiresIn(ls))[i];
    assert SpotSound(choices, ls[t]) by { SpotIsSound(choices, t); }
    GatheredIsSaid(chunks, KeyOf(Openings(ws)[i]).value);
    WireTells(choices, ls[t], i, q, parse);
  }

  ghost predicate PromiseTells(promised: Result<ContentBlock, StreamError>, i: nat, choices: seq<Choice>, spot: Spot,
                               q: Request, parse: Parser)
  {
    && KeyAt(choices, spot).Some?
    && match promised
       case Ok(block) => BlockTells(block, i, choices, spot, q, parse)
       case Err(_) =>
         KeyAt(choices, spot).value.KCall? && parse(Said(choices, KeyAt(choices, spot).value)).None?
  }

  lemma {:induction false} WireTells(choices: seq<Choice>, l: Located, i: nat, q: Request, parse: Parser)
    requires SpotSound(choices, l)
    ensures PromiseTells(PromisedBlock(l.wire, i, Said(choices, KeyOf(l.wire).value), q, parse), i, choices, l.spot, q,
                         parse)
  {
  }

  ghost predicate SpotsTell(chunks: seq<Chunk>, spots: seq<Spot>, q: Request, parse: Parser) {
    var choices, drafts := ChoicesOf(chunks), Drafts(WiresOf(chunks));
    && Layout(choices, spots) && |spots| == |drafts|
    && forall i :: 0 <= i < |drafts| ==> PromiseTells(PromisedAt(drafts, i, q, parse), i, choices, spots[i], q, parse)
  }

  lemma {:induction false} DraftsTell(chunks: seq<Chunk>, q: Request, parse: Parser)
    ensures SpotsTell(chunks, SpotsOf(ChoicesOf(chunks)), q, parse)
  {
    var choices, drafts := ChoicesOf(chunks), Drafts(WiresOf(chunks));
    var spots := SpotsOf(choices);
    SpotsLayOut(choices);
    assert |spots| == |drafts| by {
      LocatedIsKeyed(chunks);
      OpeningsOfKeyed(WiresOf(chunks));
    }
    forall i | 0 <= i < |drafts|
      ensures PromiseTells(PromisedAt(drafts, i, q, parse), i, choices, spots[i], q, parse)
    {
      DraftTells(chunks, i, q, parse);
    }
  }

  lemma {:induction false} ReadableIsJson(chunks: seq<Chunk>, spots: seq<Spot>, q: Request, parse: Parser)
    requires SpotsTell(chunks, spots, q, parse) && Readable(Drafts(WiresOf(chunks)), q, parse)
    ensures AllJson(ChoicesOf(chunks), parse)
    ensures ContentTells(PromisedContent(Drafts(WiresOf(chunks)), q, parse), ChoicesOf(chunks), q, parse)
  {
    var choices, drafts := ChoicesOf(chunks), Drafts(WiresOf(chunks));
    assert BlocksTell(PromisedContent(drafts, q, parse), choices, spots, q, parse);
    forall spot: Spot | KeyAt(choices, spot).Some? && KeyAt(choices, spot).value.KCall?
      ensures parse(Said(choices, KeyAt(choices, spot).value)).Some?
    {
      assert Speaks(choices, spots, KeyAt(choices, spot).value);
      var i :| 0 <= i < |spots| && KeyAt(choices, spots[i]) == KeyAt(choices, spot);
      assert PromiseTells(PromisedAt(drafts, i, q, parse), i, choices, spots[i], q, parse);
      assert PromisedAt(drafts, i, q, parse).Ok?;
    }
  }

  lemma {:induction false} JsonIsReadable(chunks: seq<Chunk>, spots: seq<Spot>, q: Request, parse: Parser)
    requires SpotsTell(chunks, spots, q, parse) && AllJson(ChoicesOf(chunks), parse)
    ensures Readable(Drafts(WiresOf(chunks)), q, parse)
  {
    var choices, drafts := ChoicesOf(chunks), Drafts(WiresOf(chunks));
    forall i | 0 <= i < |drafts| ensures PromisedAt(drafts, i, q, parse).Ok? {
      assert PromiseTells(PromisedAt(drafts, i, q, parse), i, choices, spots[i], q, parse);
    }
  }

  /** The promised response is what the fields of the chunks say, and there is one unless some arguments are no JSON. */
  lemma {:induction false} PromisedTells(chunks: seq<Chunk>, q: Request, parse: Parser)
    ensures Promised(chunks, q, parse).Ok? <==> AllJson(ChoicesOf(chunks), parse)
    ensures match Promised(chunks, q, parse)
            case Ok(r) => Tells(r, chunks, q, parse)
            case Err(error) => error == BadJson
  {
    var spots := SpotsOf(ChoicesOf(chunks));
    DraftsTell(chunks, q, parse);
    if Readable(Drafts(WiresOf(chunks)), q, parse) {
      ReadableIsJson(chunks, spots, q, parse);
      LastsAreTold(chunks);
    } else if AllJson(ChoicesOf(chunks), parse) {
      JsonIsReadable(chunks, spots, q, parse);
    }
  }

  // ---------------------------------------------------------------- nothing is left open

  lemma {:induction false} FirstIsUnique(choices: seq<Choice>, a: Spot, b: Spot)
    requires First(choices, a) && First(choices, b) && KeyAt(choices, a) == KeyAt(choices, b)
    ensures a == b
  {
    assert a.Before(b) || b.Before(a) || a == b;
  }

  lemma {:induction false} LayoutHolds(choices: seq<Choice>, spots: seq<Spot>, spot: Spot)
    requires Layout(choices, spots) && First(choices, spot)
    ensures exists i :: 0 <= i < |spots| && spots[i] == spot
  {
    assert Speaks(choices, spots, KeyAt(choices, spot).value);
    var i :| 0 <= i < |spots| && KeyAt(choices, spots[i]) == KeyAt(choices, spot);
    FirstIsUnique(choices, spots[i], spot);
  }

  /** Up to `n`, two layouts agree. */
  lemma {:induction false} LayoutsAgree(choices: seq<Choice>, xs: seq<Spot>, ys: seq<Spot>, n: nat)
    requires Layout(choices, xs) && Layout(choices, ys) && n < |xs|
    ensures n < |ys| && xs[n] == ys[n]
    decreases n
  {
    forall k | 0 <= k < n ensures k < |ys| && xs[k] == ys[k] {
      LayoutsAgree(choices, xs, ys, k);
    }
    LayoutHolds(choices, ys, xs[n]);
    var i :| 0 <= i < |ys| && ys[i] == xs[n];
    NotEarlier(choices, xs, ys, n, i);
    LayoutHolds(choices, xs, ys[n]);
    var j :| 0 <= j < |xs| && xs[j] == ys[n];
    NotEarlier(choices, ys, xs, n, j);
    NotCrossed(choices, xs, ys, n, i, j);
  }

  lemma {:induction false} NotEarlier(choices: seq<Choice>, xs: seq<Spot>, ys: seq<Spot>, n: nat, i: nat)
    requires Layout(choices, xs) && n < |xs| && i < |ys| && ys[i] == xs[n]
    requires forall k :: 0 <= k < n && k < |ys| ==> xs[k] == ys[k]
    ensures i >= n
  {
  }

  lemma {:induction false} NotCrossed(choices: seq<Choice>, xs: seq<Spot>, ys: seq<Spot>, n: nat, i: nat, j: nat)
    requires Layout(choices, xs) && Layout(choices, ys) && n <= j < |xs| && n <= i < |ys|
    requires ys[i] == xs[n] && xs[j] == ys[n]
    ensures i == n || j == n
  {
  }

  lemma {:induction false} LayoutIsUnique(choices: seq<Choice>, xs: seq<Spot>, ys: seq<Spot>)
    requires Layout(choices, xs) && Layout(choices, ys)
    ensures xs == ys
  {
    assert |xs| <= |ys| by { NoLonger(choices, xs, ys); }
    assert |ys| <= |xs| by { NoLonger(choices, ys, xs); }
    forall n | 0 <= n < |xs| ensures xs[n] == ys[n] {
      LayoutsAgree(choices, xs, ys, n);
    }
  }

  lemma {:induction false} NoLonger(choices: seq<Choice>, xs: seq<Spot>, ys: seq<Spot>)
    requires Layout(choices, xs) && Layout(choices, ys)
    ensures |xs| <= |ys|
  {
    if xs != [] {
      LayoutsAgree(choices, xs, ys, |xs| - 1);
    }
  }

  /** The chunks speak of at most one response. */
  lemma {:induction false} TellsOnce(r: Response, r': Response, chunks: seq<Chunk>, q: Request, parse: Parser)
    requires Tells(r, chunks, q, parse) && Tells(r', chunks, q, parse)
    ensures r == r'
  {
    assert r.content == r'.content by { ContentTellsOnce(r.content, r'.content, ChoicesOf(chunks), q, parse); }
  }

  lemma {:induction false} BlockTellsOnce(a: ContentBlock, b: ContentBlock, i: nat, choices: seq<Choice>, spot: Spot,
                                          q: Request, parse: Parser)
    requires KeyAt(choices, spot).Some?
    requires BlockTells(a, i, choices, spot, q, parse) && BlockTells(b, i, choices, spot, q, parse)
    ensures a == b
  {
  }

  lemma {:induction false} ContentTellsOnce(xs: seq<ContentBlock>, ys: seq<ContentBlock>, choices: seq<Choice>,
                                            q: Request, parse: Parser)
    requires ContentTells(xs, choices, q, parse) && ContentTells(ys, choices, q, parse)
    ensures xs == ys
  {
    var spots :| Layout(choices, spots) && BlocksTell(xs, choices, spots, q, parse);
    var others :| Layout(choices, others) && BlocksTell(ys, choices, others, q, parse);
    LayoutIsUnique(choices, spots, others);
    forall i | 0 <= i < |spots| ensures xs[i] == ys[i] {
      BlockTellsOnce(xs[i], ys[i], i, choices, spots[i], q, parse);
    }
  }

  // ---------------------------------------------------------------- end to end

  function Number(s: string): int
    decreases |s|
  {
    if s == "" then 0 else 10 * Number(s[..|s| - 1]) + (s[|s| - 1] as int - '0' as int)
  }

  /** The number a missing id falls back on is written in decimal, without a leading zero. */
  lemma {:induction false} DecimalReads(n: nat)
    ensures Decimal(n) != "" && Number(Decimal(n)) == n
    ensures forall i :: 0 <= i < |Decimal(n)| ==> '0' <= Decimal(n)[i] <= '9'
    ensures n > 0 ==> Decimal(n)[0] != '0'
  {
    DigitReads(n % 10);
    if n >= 10 {
      DecimalReads(n / 10);
      var front := Decimal(n / 10);
      assert Decimal(n)[..|front|] == front;
    } else {
      assert Decimal(n)[..0] == "";
    }
  }

  lemma {:induction false} DigitReads(n: nat)
    requires n < 10
    ensures "0123456789"[n] as int == '0' as int + n
  {
  }

  /** The chunks that arrive before the end marker. */
  function ChunksBefore(fs: seq<Frame>): seq<Chunk> {
    if fs == [] || fs[0].Done? then []
    else (if fs[0].Data? then [fs[0].chunk] else []) + ChunksBefore(fs[1..])
  }

  lemma {:induction false} EndsLater(fs: seq<Frame>)
    requires fs != []
    ensures Ends(fs) <==> fs[0].Done? || Ends(fs[1..])
  {
    if Ends(fs) && !fs[0].Done? {
      var k :| 0 <= k < |fs| && fs[k].Done?;
      assert fs[1..][k - 1].Done?;
    } else if Ends(fs[1..]) {
      var k :| 0 <= k < |fs[1..]| && fs[1..][k].Done?;
      assert fs[k + 1].Done?;
    }
  }

  lemma {:induction false} ChunksAppend(fs: seq<Frame>, f: Frame)
    ensures ChunksBefore(fs + [f]) == ChunksBefore(fs) + (if !Ends(fs) && f.Data? then [f.chunk] else [])
  {
    var last := if !Ends(fs) && f.Data? then [f.chunk] else [];
    if fs == [] {
      assert (fs + [f])[1..] == [];
    } else {
      EndsLater(fs);
      if !fs[0].Done? {
        assert ChunksBefore(fs[1..] + [f]) == ChunksBefore(fs[1..]) + last by { ChunksAppend(fs[1..], f); }
        assert (fs + [f])[1..] == fs[1..] + [f];
        Regroup(if fs[0].Data? then [fs[0].chunk] else [], ChunksBefore(fs[1..]), last);
      }
    }
  }

  lemma {:induction false} LiveIsBefore(fs: seq<Frame>)
    ensures Live(fs) == ChunksBefore(fs)
    decreases |fs|
  {
    if fs != [] {
      var front, f := fs[..|fs| - 1], fs[|fs| - 1];
      assert fs == front + [f];
      LiveIsBefore(front);
      ChunksAppend(front, f);
    }
  }

  /**
   Bytes in any chunks, end to end: when they close with every frame readable, what the collector rebuilds from the
   events sent is the response the chunks before the end marker speak of, and it fails only where some tool call's
   joined arguments are not JSON.
   */
  lemma {:induction false} OutcomeTells(stream: Bytes, decode: Bytes -> Frame, q: Request, parse: Parser)
    requires AllReadable(FramesOf(stream, true, decode))
    ensures var chunks := ChunksBefore(FramesOf(stream, true, decode));
            var (events, failed) := Outcome(START, stream, true, decode, q);
            && !failed
            && (Collected(events, parse).Ok? <==> AllJson(ChoicesOf(chunks), parse))
            && match Collected(events, parse)
               case Ok(r) => Tells(r, chunks, q, parse)
               case Err(error) => error == BadJson
  {
    OutcomeCollects(stream, decode, q, parse);
    LiveIsBefore(FramesOf(stream, true, decode));
    PromisedTells(Live(FramesOf(stream, true, decode)), q, parse);
  }
}
