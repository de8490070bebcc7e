/** The transport loop: bytes in, in whatever chunks they arrive, provider events out. */
module ChatForward {
  import opened Base
  import opened Frames
  import opened Collector
  import opened ChatStream

  class StreamState {
    const request: Request
    var started: bool
    var finished: bool
    var nextIndex: nat
    var textIndex: Option<nat>
    var reasoningIndex: Option<nat>
    var toolIndices: map<nat, nat>
    var open: seq<nat>
    var stopReason: Option<string>
    var usage: Option<TokenUsage>

    ghost function Value(): Decoder
      reads this
    {
      Decoder(started, finished, nextIndex, textIndex, reasoningIndex, toolIndices, open, stopReason, usage)
    }

    constructor (request: Request)
      ensures Value() == IDLE && this.request == request
    {
      this.request := request;
      started, finished, nextIndex, textIndex, reasoningIndex := false, false, 0, None, None;
      toolIndices, open, stopReason, usage := map[], [], None, None;
    }

    method Allocate() returns (index: nat)
      modifies this`nextIndex, this`open
      ensures index == old(nextIndex)
      ensures Value() == old(Value()).(nextIndex := index + 1, open := old(open) + [index])
    {
      index := nextIndex;
      nextIndex := nextIndex + 1;
      open := open + [index];
    }

    /** Closes the response: what `Close` says, and nothing the second time. */
    method Finish() returns (events: seq<Event>)
      modifies this
      ensures (Value(), events) == Close(old(Value()), request)
    {
      if finished {
        return [];
      }
      finished := true;
      events := [];
      if !started {
        events := [MessageStarted("", request.model, Assistant)];
        started := true;
      }
      ghost var head := events;
      var closing := open;
      open := [];
      for k := 0 to |closing|
        invariant events == head + Stops(closing)[..k]
      {
        events := events + [BlockStopped(closing[k])];
      }
      assert Stops(closing)[..|closing|] == Stops(closing);
      ghost var end := [MessageDelta(stopReason, usage), MessageStopped];
      events := events + [MessageDelta(stopReason, usage)];
      events := events + [MessageStopped];
      assert events == head + Stops(closing) + end;
      stopReason, usage := None, None;
    }

    method ReadReasoning(delta: Delta) returns (events: seq<Event>)
      modifies this
      ensures var text := ReasoningText(delta);
              (Value(), events) == EmitAll(old(Value()), if text == "" then [] else [Reasoning(text)], request)
    {
      events := [];
      var text := ReasoningText(delta);
      if text != "" {
        EmitOne(Value(), Reasoning(text), request);
        var index;
        if reasoningIndex.Some? {
          index := reasoningIndex.value;
        } else {
          index := Allocate();
          reasoningIndex := Some(index);
          events := [BlockStarted(index, StartThinking(None, None, Some(request.Origin()), false))];
        }
        events := events + [BlockChanged(index, ThinkingText(text))];
      }
    }

    method ReadText(delta: Delta) returns (events: seq<Event>)
      modifies this
      ensures var text := OrElse(delta.content, "");
              (Value(), events) == EmitAll(old(Value()), if text == "" then [] else [Words(text)], request)
    {
      events := [];
      var text := OrElse(delta.content, "");
      if text != "" {
        EmitOne(Value(), Words(text), request);
        var index;
        if textIndex.Some? {
          index := textIndex.value;
        } else {
          index := Allocate();
          textIndex := Some(index);
          events := [BlockStarted(index, StartText)];
        }
        events := events + [BlockChanged(index, TextDelta(text))];
      }
    }

    method ReadCall(call: ToolCallDelta) returns (events: seq<Event>)
      modifies this
      ensures (Value(), events) == Emit(old(Value()), CallWire(call), request)
    {
      events := [];
      var index;
      if call.index in toolIndices {
        index := toolIndices[call.index];
      } else {
        index := Allocate();
        toolIndices := toolIndices[call.index := index];
        events := [BlockStarted(index, StartToolUse(OrElse(call.id, "call_" + Decimal(index)), NameOf(call)))];
      }
      assert events + [] == events;
      assert [] + [BlockChanged(index, ToolUseInput(ArgumentsOf(call)))] ==
        [BlockChanged(index, ToolUseInput(ArgumentsOf(call)))];
      if ArgumentsOf(call) != "" {
        events := events + [BlockChanged(index, ToolUseInput(ArgumentsOf(call)))];
      }
    }

    method ReadCalls(calls: seq<ToolCallDelta>) returns (events: seq<Event>)
      modifies this
      ensures (Value(), events) == EmitAll(old(Value()), CallWires(calls), request)
    {
      events := [];
      for k := 0 to |calls|
        invariant (Value(), events) == EmitAll(old(Value()), CallWires(calls)[..k], request)
      {
        assert CallWires(calls)[..k + 1][..k] == CallWires(calls)[..k];
        var more := ReadCall(calls[k]);
        events := events + more;
      }
      assert CallWires(calls)[..|calls|] == CallWires(calls);
    }

    method ReadChoice(choice: Choice) returns (events: seq<Event>)
      modifies this
      ensures (Value(), events) == EmitAll(old(Value()), WiresOfChoice(choice), request)
    {
      var delta := choice.delta;
      ghost var d0 := Value();
      ghost var w1 := if ReasoningText(delta) == "" then [] else [Reasoning(ReasoningText(delta))];
      ghost var w2 := if OrElse(delta.content, "") == "" then [] else [Words(delta.content.value)];
      ghost var w3 := CallWires(delta.toolCalls);
      events := ReadReasoning(delta);
      var more := ReadText(delta);
      events := events + more;
      assert (Value(), events) == EmitAll(d0, w1 + w2, request) by { EmitAllConcat(d0, w1, w2, request); }
      more := ReadCalls(delta.toolCalls);
      events := events + more;
      assert (Value(), events) == EmitAll(d0, w1 + w2 + w3, request) by { EmitAllConcat(d0, w1 + w2, w3, request); }
      EndedLast(d0, w1 + w2 + w3, choice.finishReason, request);
      if choice.finishReason.Some? {
        stopReason := choice.finishReason;
      }
    }

    method ReadChoices(choices: seq<Choice>) returns (events: seq<Event>)
      modifies this
      ensures (Value(), events) == EmitAll(old(Value()), WiresOfChoices(choices), request)
    {
      events := [];
      for k := 0 to |choices|
        invariant (Value(), events) == EmitAll(old(Value()), WiresOfChoices(choices[..k]), request)
      {
        assert choices[..k + 1][..k] == choices[..k];
        EmitAllConcat(old(Value()), WiresOfChoices(choices[..k]), WiresOfChoice(choices[k]), request);
        var more := ReadChoice(choices[k]);
        events := events + more;
      }
      assert choices[..|choices|] == choices;
    }

    /** Takes in one chunk. */
    method ApplyChunk(chunk: Chunk) returns (events: seq<Event>)
      modifies this
      ensures (Value(), events) == Accept(old(Value()), chunk, request)
    {
      if finished {
        return [];
      }
      events := [];
      if !started {
        started := true;
        events := [MessageStarted(OrElse(chunk.id, ""), OrElse(chunk.model, request.model), Assistant)];
      }
      ghost var d0 := Value();
      if chunk.usage.Some? {
        usage := Some(TokenUsageOf(chunk.usage.value));
        SpentFirst(d0, chunk, request);
      } else {
        assert [] + WiresOfChoices(chunk.choices) == WiresOfChoices(chunk.choices);
      }
      var more := ReadChoices(chunk.choices);
      assert (Value(), more) == EmitAll(d0, WiresOfChunk(chunk), request);
      events := events + more;
    }

    /** Reads one frame and sends what it yields after what was `sent` before. */
    method ReadFrame(f: Frame, sent: seq<Event>) returns (log: seq<Event>, failed: bool)
      modifies this
      ensures Progress(Value(), log, failed) == Handle(Progress(old(Value()), sent, false), f, request)
    {
      log, failed := sent, false;
      var events;
      match f {
        case Quiet =>
        case Done =>
          events := Finish();
          log := sent + events;
        case Data(chunk) =>
          events := ApplyChunk(chunk);
          log := sent + events;
        case Bad =>
          failed := true;
      }
    }
  }

  lemma {:induction false} EmitOne(d: Decoder, w: Wire, q: Request)
    ensures EmitAll(d, [w], q) == Emit(d, w, q)
  {
    assert [w][..0] == [];
    assert [] + Emit(d, w, q).1 == Emit(d, w, q).1;
  }

  lemma {:induction false} EndedLast(d: Decoder, ws: seq<Wire>, reason: Option<string>, q: Request)
    ensures var (d', events) := EmitAll(d, ws, q);
            EmitAll(d, ws + (if reason.None? then [] else [Ended(reason.value)]), q)
            == (if reason.None? then d' else d'.(stopReason := reason), events)
  {
    var (d', events) := EmitAll(d, ws, q);
    if reason.None? {
      assert ws + [] == ws;
    } else {
      EmitAllConcat(d, ws, [Ended(reason.value)], q);
      EmitOne(d', Ended(reason.value), q);
      assert events + [] == events;
    }
  }

  lemma {:induction false} SpentFirst(d: Decoder, chunk: Chunk, q: Request)
    requires chunk.usage.Some?
    ensures EmitAll(d, WiresOfChunk(chunk), q)
         == EmitAll(d.(usage := Some(TokenUsageOf(chunk.usage.value))), WiresOfChoices(chunk.choices), q)
  {
    var w := Spent(TokenUsageOf(chunk.usage.value));
    EmitOne(d, w, q);
    EmitAllConcat(d, [w], WiresOfChoices(chunk.choices), q);
    var d1 := d.(usage := Some(w.usage));
    assert [] + EmitAll(d1, WiresOfChoices(chunk.choices), q).1 == EmitAll(d1, WiresOfChoices(chunk.choices), q).1;
  }

  // ---------------------------------------------------------------- chunk independence

  function Flatten(chunks: seq<Bytes>): Bytes {
    if chunks == [] then [] else chunks[0] + Flatten(chunks[1..])
  }

  function DecodeAll(pieces: seq<Piece>, decode: Bytes -> Frame): (r: seq<Frame>)
    ensures |r| == |pieces|
  {
    seq(|pieces|, i requires 0 <= i < |pieces| => decode(pieces[i].frame))
  }

  /** The decoded frames of a whole stream; what is left over counts as a frame only once the stream has closed. */
  function FramesOf(stream: Bytes, closed: bool, decode: Bytes -> Frame): seq<Frame> {
    var f := Split(stream);
    DecodeAll(f.pieces, decode) + (if closed && f.rest != [] then [decode(f.rest)] else [])
  }

  /**
   What the consumer receives in the end when `stream` is still to be read: the events, and whether they end in an
   error.
   */
  function Outcome(p: Progress, stream: Bytes, closed: bool, decode: Bytes -> Frame,
                   q: Request): (r: (seq<Event>, bool))
  {
    var last := HandleFrom(p, FramesOf(stream, closed, decode), q);
    if last.failed || !closed then (last.events, true) else (last.events + Close(last.decoder, q).1, false)
  }

  lemma {:induction false} HandleFromConcat(p: Progress, fs: seq<Frame>, more: seq<Frame>, q: Request)
    ensures HandleFrom(p, fs + more, q) == HandleFrom(HandleFrom(p, fs, q), more, q)
    decreases |more|
  {
    if more == [] {
      assert fs + more == fs;
    } else {
      HandleFromConcat(p, fs, more[..|more| - 1], q);
      assert (fs + more)[..|fs + more| - 1] == fs + more[..|more| - 1];
    }
  }

  lemma {:induction false} FailureIsFinal(p: Progress, fs: seq<Frame>, q: Request)
    requires p.failed
    ensures HandleFrom(p, fs, q) == p
    decreases |fs|
  {
    if fs != [] {
      FailureIsFinal(p, fs[..|fs| - 1], q);
    }
  }

  lemma {:induction false} HandleOne(p: Progress, f: Frame, q: Request)
    ensures HandleFrom(p, [f], q) == Handle(p, f, q)
  {
    assert [f][..0] == [];
  }

  lemma {:induction false} HandleNext(p: Progress, f: Framing, piece: Piece, decode: Bytes -> Frame, q: Request)
    ensures HandleFrom(p, DecodeAll(f.After(piece).pieces, decode), q)
         == HandleFrom(Handle(p, decode(piece.frame), q), DecodeAll(f.pieces, decode), q)
  {
    var frame := decode(piece.frame);
    assert DecodeAll(f.After(piece).pieces, decode) == [frame] + DecodeAll(f.pieces, decode);
    HandleFromConcat(p, [frame], DecodeAll(f.pieces, decode), q);
    HandleOne(p, frame, q);
  }

  lemma {:induction false} FramesInTwoSteps(arrived: Bytes, more: Bytes, closed: bool, decode: Bytes -> Frame)
    ensures FramesOf(arrived + more, closed, decode)
         == DecodeAll(Split(arrived).pieces, decode) + FramesOf(Split(arrived).rest + more, closed, decode)
  {
    var f, g, h := Split(arrived), Split(Split(arrived).rest + more), Split(arrived + more);
    assert h == Framing(f.pieces + g.pieces, g.rest) by { SplitExtends(arrived, more); }
    DecodeConcat(f.pieces, g.pieces, decode);
    var tail := if closed && g.rest != [] then [decode(g.rest)] else [];
    assert (DecodeAll(f.pieces, decode) + DecodeAll(g.pieces, decode)) + tail
        == DecodeAll(f.pieces, decode) + (DecodeAll(g.pieces, decode) + tail);
  }

  lemma {:induction false} DecodeConcat(xs: seq<Piece>, ys: seq<Piece>, decode: Bytes -> Frame)
    ensures DecodeAll(xs + ys, decode) == DecodeAll(xs, decode) + DecodeAll(ys, decode)
  {
  }

  /** Reading the frames that have arrived first, and the rest later, comes out the same. */
  lemma {:induction false} OutcomeInTwoSteps(p: Progress, arrived: Bytes, more: Bytes, closed: bool,
                                             decode: Bytes -> Frame, q: Request)
    ensures Outcome(p, arrived + more, closed, decode, q)
         == Outcome(HandleFrom(p, DecodeAll(Split(arrived).pieces, decode), q),
                    Split(arrived).rest + more, closed, decode, q)
  {
    var first, second := DecodeAll(Split(arrived).pieces, decode), FramesOf(Split(arrived).rest + more, closed, decode);
    assert HandleFrom(p, FramesOf(arrived + more, closed, decode), q) ==
      HandleFrom(HandleFrom(p, first, q), second, q) by {
      FramesInTwoSteps(arrived, more, closed, decode);
      HandleFromConcat(p, first, second, q);
    }
  }

  /** Cuts the first frame off `buffer` and reads it. */
  method CutOne(state: StreamState, buffer: Bytes, found: Boundary, decode: Bytes -> Frame, sent: seq<Event>)
    returns (log: seq<Event>, failed: bool, rest: Bytes)
    requires FindFrameBoundary(buffer) == Some(found)
    modifies state
    ensures |rest| < |buffer| && Split(rest).rest == Split(buffer).rest
    ensures HandleFrom(Progress(state.Value(), log, failed), DecodeAll(Split(rest).pieces, decode), state.request)
         == HandleFrom(Progress(old(state.Value()), sent, false), DecodeAll(Split(buffer).pieces, decode),
                        state.request)
  {
    ghost var piece, tail := FirstPiece(buffer);
    SplitAt(buffer, piece, tail);
    var frame := buffer[..found.end];
    assert frame == piece.frame;
    rest := buffer[found.end..][found.delimiter..];
    assert rest == tail;
    HandleNext(Progress(state.Value(), sent, false), Split(tail), piece, decode, state.request);
    log, failed := state.ReadFrame(decode(frame), sent);
  }

  lemma {:induction false} NothingReady(p: Progress, rest: Bytes, decode: Bytes -> Frame, q: Request)
    requires FindFrameBoundary(rest).None?
    ensures Split(rest).rest == rest && HandleFrom(p, DecodeAll(Split(rest).pieces, decode), q) == p
  {
    assert DecodeAll(Split(rest).pieces, decode) == [];
  }

  /** Cuts every complete frame off the front of `buffer` and reads it. */
  method Drain(state: StreamState, buffer: Bytes, decode: Bytes -> Frame, sent: seq<Event>)
    returns (log: seq<Event>, failed: bool, rest: Bytes)
    modifies state
    ensures !failed ==> rest == Split(buffer).rest
    ensures Progress(state.Value(), log, failed)
         == HandleFrom(Progress(old(state.Value()), sent, false), DecodeAll(Split(buffer).pieces, decode),
                        state.request)
  {
    log, failed, rest := sent, false, buffer;
    ghost var target := HandleFrom(Progress(state.Value(), sent, false), DecodeAll(Split(buffer).pieces, decode),
      state.request);
    var found := FindFrameBoundary(rest);
    while found.Some?
      invariant found == FindFrameBoundary(rest) && !failed
      invariant Split(rest).rest == Split(buffer).rest
      invariant HandleFrom(Progress(state.Value(), log, false), DecodeAll(Split(rest).pieces, decode),
            state.request) == target
      decreases |rest|
    {
      log, failed, rest := CutOne(state, rest, found.value, decode, log);
      if failed {
        FailureIsFinal(Progress(state.Value(), log, true), DecodeAll(Split(rest).pieces, decode), state.request);
        return;
      }
      found := FindFrameBoundary(rest);
    }
    NothingReady(Progress(state.Value(), log, false), rest, decode, state.request);
  }

  lemma {:induction false} RestHasNoBoundary(b: Bytes)
    ensures FindFrameBoundary(Split(b).rest).None?
  {
    SplitIsClean(b);
    BoundaryIsFirstBlank(Split(b).rest);
  }

  lemma {:induction false} OutcomeOfLast(p: Progress, buffer: Bytes, closed: bool, decode: Bytes -> Frame, q: Request)
    requires FindFrameBoundary(buffer).None? && !p.failed
    ensures var last := if closed && buffer != [] then Handle(p, decode(buffer), q) else p;
            Outcome(p, buffer, closed, decode, q) ==
              if last.failed || !closed then (last.events, true) else (last.events + Close(last.decoder, q).1, false)
  {
    LastFrames(buffer, closed, decode);
    if closed && buffer != [] {
      HandleOne(p, decode(buffer), q);
    }
  }

  lemma {:induction false} LastFrames(buffer: Bytes, closed: bool, decode: Bytes -> Frame)
    requires FindFrameBoundary(buffer).None?
    ensures FramesOf(buffer, closed, decode) == if closed && buffer != [] then [decode(buffer)] else []
  {
    assert Split(buffer) == Framing([], buffer);
    assert DecodeAll([], decode) == [];
  }

  /** What happens when the chunks are used up: a remainder counts as a frame, and the blocks are closed. */
  method Conclude(state: StreamState, buffer: Bytes, closed: bool, decode: Bytes -> Frame, sent: seq<Event>)
    returns (events: seq<Event>, failed: bool)
    requires FindFrameBoundary(buffer).None?
    modifies state
    ensures (events, failed) == Outcome(Progress(old(state.Value()), sent, false), buffer, closed, decode,
          state.request)
  {
    ghost var p := Progress(state.Value(), sent, false);
    OutcomeOfLast(p, buffer, closed, decode, state.request);
    if !closed {
      return sent, true;
    }
    events := sent;
    if buffer != [] {
      events, failed := state.ReadFrame(decode(buffer), sent);
      if failed {
        return;
      }
    }
    var more := state.Finish();
    return events + more, false;
  }

  /**
   Forwards a stream that arrives as `chunks` and then closes, or breaks when `closed` is false.

   The outcome is a function of the bytes alone: however they are cut into chunks, the same events are sent.
   */
  method Forward(chunks: seq<Bytes>, closed: bool, decode: Bytes -> Frame, q: Request)
    returns (events: seq<Event>, failed: bool)
    ensures (events, failed) == Outcome(START, Flatten(chunks), closed, decode, q)
  {
    var state := new StreamState(q);
    var buffer: Bytes := [];
    events := [];
    assert chunks[0..] == chunks && [] + Flatten(chunks) == Flatten(chunks);
    BoundaryIsFirstBlank([]);
    for k := 0 to |chunks|
      invariant state.request == q
      invariant FindFrameBoundary(buffer).None?
      invariant Outcome(Progress(state.Value(), events, false), buffer + Flatten(chunks[k..]), closed, decode, q)
             == Outcome(START, Flatten(chunks), closed, decode, q)
    {
      ghost var p, later := Progress(state.Value(), events, false), Flatten(chunks[k + 1..]);
      assert chunks[k..][1..] == chunks[k + 1..];
      assert buffer + (chunks[k] + later) == (buffer + chunks[k]) + later;
      buffer := buffer + chunks[k];
      OutcomeInTwoSteps(p, buffer, later, closed, decode, q);
      RestHasNoBoundary(buffer);
      ghost var rest := Split(buffer).rest;
      events, failed, buffer := Drain(state, buffer, decode, events);
      if failed {
        FailureIsFinal(Progress(state.Value(), events, true), FramesOf(rest + later, closed, decode), q);
        return;
      }
    }
    assert buffer + Flatten(chunks[|chunks|..]) == buffer;
    events, failed := Conclude(state, buffer, closed, decode, events);
  }

  lemma {:induction false} FailsIfUnreadable(fs: seq<Frame>, q: Request)
    ensures HandleAll(fs, q).failed <==> !AllReadable(fs)
    decreases |fs|
  {
    if fs != [] {
      var front := fs[..|fs| - 1];
      FailsIfUnreadable(front, q);
      assert AllReadable(fs) <==> AllReadable(front) && !fs[|fs| - 1].Bad?;
    }
  }

  /**
   End to end: a stream that closes is delivered without an error exactly when all its frames are readable, and
   is then collected into the response its chunks stand for.
   */
  lemma {:induction false} OutcomeCollects(stream: Bytes, decode: Bytes -> Frame, q: Request, parse: Parser)
    ensures var fs := FramesOf(stream, true, decode);
            var (events, failed) := Outcome(START, stream, true, decode, q);
            && (failed <==> !AllReadable(fs))
            && (!failed ==> Collected(events, parse) == Promised(Live(fs), q, parse))
  {
    var fs := FramesOf(stream, true, decode);
    FailsIfUnreadable(fs, q);
    if AllReadable(fs) {
      StreamCollectsAsPromised(fs, q, parse);
    }
  }
}
