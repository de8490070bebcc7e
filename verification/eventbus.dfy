/**
 The agent event bus: taps called synchronously, then the broadcast, with guards
 that unregister a tap when dropped.

 Two locks protect it. `dispatch` is held for a whole send and for unregistering;
 `registry` only while the tap list is read or changed. Threads interleave one
 step at a time, in any order. Callbacks neither panic nor call back into the bus.
 */
module EventBus {
  import opened Base

  type Thread = nat
  type Tap = nat
  type Event = nat

  /** Where a thread is inside `send`, `register_tap` or a guard's drop. */
  datatype Pc =
    | Idle
    | SendWaiting(event: Event)
    | SendLocked(event: Event)
    | SendReading(event: Event)
    | Sending(event: Event, snapshot: seq<Tap>, called: nat, calling: bool)
    | SendDone
    | RegisterWaiting
    | Registering
    | DropWaiting(tap: Tap)
    | DropLocked(tap: Tap)
    | DropEditing(tap: Tap)
    | DropDone(tap: Tap)

  predicate HoldsDispatch(pc: Pc) {
    pc.SendLocked? || pc.SendReading? || pc.Sending? || pc.SendDone? || pc.DropLocked? || pc.DropEditing? ||
      pc.DropDone?
  }

  predicate HoldsRegistry(pc: Pc) {
    pc.SendReading? || pc.Registering? || pc.DropEditing?
  }

  predicate Dropping(pc: Pc) {
    pc.DropWaiting? || pc.DropLocked? || pc.DropEditing? || pc.DropDone?
  }

  /**
   `guards` are the guards callers still hold and `dropped` the taps whose drop has returned. `logs` is what each
   tap was called with; `from` and `until` are where its stay begins and ends in the broadcast order.
   */
  datatype State = State(
    taps: seq<Tap>, nextId: nat, dispatch: Option<Thread>, registry: Option<Thread>, pcs: map<Thread, Pc>,
    broadcast: seq<Event>, guards: set<Tap>, dropped: set<Tap>,
    logs: map<Tap, seq<Event>>, from: map<Tap, nat>, until: map<Tap, nat>)
  {
    function Pc(i: Thread): Pc { if i in pcs then pcs[i] else Idle }

    function At(i: Thread, pc: Pc): (r: State)
      ensures forall j: Thread :: r.Pc(j) == if j == i then pc else Pc(j)
    {
      this.(pcs := pcs[i := pc])
    }

    /** The event being dispatched, once the taps to call are fixed. */
    function InFlight(): seq<Event> {
      if dispatch.Some? && Pc(dispatch.value).Sending? then [Pc(dispatch.value).event] else []
    }
  }

  const START := State([], 0, None, None, map[], [], {}, {}, map[], map[], map[])

  datatype Action =
    | BeginSend(i: Thread, event: Event)
    | BeginRegister(i: Thread)
    | BeginDrop(i: Thread, tap: Tap)
    | LockDispatch(i: Thread)
    | LockRegistry(i: Thread)
    | Snapshot(i: Thread)
    | StartCall(i: Thread)
    | EndCall(i: Thread)
    | Broadcast(i: Thread)
    | Register(i: Thread)
    | Unlink(i: Thread)
    | Return(i: Thread)

  function Removed(taps: seq<Tap>, t: Tap): (r: seq<Tap>)
    ensures forall x :: x in r <==> x in taps && x != t
  {
    if taps == [] then [] else if taps[0] == t then Removed(taps[1..], t) else [taps[0]] + Removed(taps[1..], t)
  }

  /** The state after one step, or `None` when the thread cannot take it. */
  function Next(s: State, a: Action): (r: Option<State>) {
    var pc := s.Pc(a.i);
    match a
    case BeginSend(i, event) => if pc.Idle? then Some(s.At(i, SendWaiting(event))) else None
    case BeginRegister(i) => if pc.Idle? then Some(s.At(i, RegisterWaiting)) else None
    case BeginDrop(i, tap) =>
      if pc.Idle? && tap in s.guards then Some(s.At(i, DropWaiting(tap)).(guards := s.guards - {tap})) else None
    case LockDispatch(i) =>
      if s.dispatch.Some? then None
      else if pc.SendWaiting? then Some(s.At(i, SendLocked(pc.event)).(dispatch := Some(i)))
      else if pc.DropWaiting? then Some(s.At(i, DropLocked(pc.tap)).(dispatch := Some(i)))
      else None
    case LockRegistry(i) =>
      if s.registry.Some? then None
      else if pc.SendLocked? then Some(s.At(i, SendReading(pc.event)).(registry := Some(i)))
      else if pc.RegisterWaiting? then Some(s.At(i, Registering).(registry := Some(i)))
      else if pc.DropLocked? then Some(s.At(i, DropEditing(pc.tap)).(registry := Some(i)))
      else None
    case Snapshot(i) =>
      if pc.SendReading? then Some(s.At(i, Sending(pc.event, s.taps, 0, false)).(registry := None)) else None
    case StartCall(i) =>
      if pc.Sending? && !pc.calling && pc.called < |pc.snapshot| then
        var t := pc.snapshot[pc.called];
        Some(s.At(i, pc.(calling := true)).(logs := s.logs[t := (if t in s.logs then s.logs[t] else []) + [pc.event]]))
      else None
    case EndCall(i) =>
      if pc.Sending? && pc.calling then Some(s.At(i, pc.(calling := false, called := pc.called + 1))) else None
    case Broadcast(i) =>
      if pc.Sending? && !pc.calling && pc.called == |pc.snapshot| then
        Some(s.At(i, SendDone).(broadcast := s.broadcast + [pc.event]))
      else None
    case Register(i) =>
      if pc.Registering? then
        var t := s.nextId;
        Some(s.At(i, Idle).(registry := None, nextId := t + 1, taps := s.taps + [t], guards := s.guards + {t},
                            logs := s.logs[t := []], from := s.from[t := |s.broadcast + s.InFlight()|]))
      else None
    case Unlink(i) =>
      if pc.DropEditing? then
        Some(s.At(i, DropDone(pc.tap)).(registry := None, taps := Removed(s.taps, pc.tap),
          until := s.until[pc.tap := |s.broadcast|]))
      else None
    case Return(i) =>
      if pc.SendDone? then Some(s.At(i, Idle).(dispatch := None))
      else if pc.DropDone? then Some(s.At(i, Idle).(dispatch := None, dropped := s.dropped + {pc.tap}))
      else None
  }

  // ---------------------------------------------------------------- what every reachable state satisfies

  /** A lock is held by exactly the thread whose position says so. */
  ghost predicate LocksHeld(s: State) {
    && (forall i: Thread :: HoldsDispatch(s.Pc(i)) <==> s.dispatch == Some(i))
    && (forall i: Thread :: HoldsRegistry(s.Pc(i)) <==> s.registry == Some(i))
  }

  /**
   Every tap ever registered is guarded, being dropped by one thread, or dropped; only the first two kinds are listed.
   */
  ghost predicate TapsOwned(s: State) {
    && (forall t :: t in s.taps ==> t < s.nextId && t !in s.dropped)
    && (forall t :: t in s.guards ==> t in s.taps)
    && (forall t :: t in s.dropped ==> t < s.nextId && t in s.until)
    && (forall i: Thread :: Dropping(s.Pc(i)) ==>
          var t := s.Pc(i).tap;
          t < s.nextId && t !in s.guards && t !in s.dropped && (t in s.taps <==> !s.Pc(i).DropDone?) &&
            (s.Pc(i).DropDone? ==> t in s.until))
    && (forall i: Thread, j: Thread :: i != j && Dropping(s.Pc(i)) && Dropping(s.Pc(j)) ==> s.Pc(i).tap != s.Pc(j).tap)
    && (forall t: Tap :: t in s.until <==> t < s.nextId && t !in s.taps)
  }

  ghost predicate Distinct(taps: seq<Tap>) {
    forall i, j :: 0 <= i < j < |taps| ==> taps[i] != taps[j]
  }

  /** The taps already called by the send in progress. */
  function Seen(pc: Pc): seq<Tap>
    requires pc.Sending? && pc.called <= |pc.snapshot| && (pc.calling ==> pc.called < |pc.snapshot|)
  {
    pc.snapshot[..if pc.calling then pc.called + 1 else pc.called]
  }

  ghost predicate SendSound(s: State) {
    s.dispatch.Some? && s.Pc(s.dispatch.value).Sending? ==>
      var pc := s.Pc(s.dispatch.value);
      && pc.called <= |pc.snapshot| && (pc.calling ==> pc.called < |pc.snapshot|)
      && Distinct(pc.snapshot)
      && (forall t :: t in pc.snapshot ==> t in s.taps)
  }

  /**
   What a listed tap has been called with: everything broadcast during its stay, and the event in flight if its turn
   came.
   */
  ghost predicate ListedLog(s: State, t: Tap)
    requires SendSound(s)
  {
    && t in s.logs && t in s.from
    && if s.InFlight() == [] then s.from[t] <= |s.broadcast| && s.logs[t] == s.broadcast[s.from[t]..]
       else
         var pc := s.Pc(s.dispatch.value);
         if t !in pc.snapshot then s.from[t] == |s.broadcast| + 1 && s.logs[t] == []
         else
           && s.from[t] <= |s.broadcast|
           && s.logs[t] == s.broadcast[s.from[t]..] + (if t in Seen(pc) then [pc.event] else [])
  }

  /** An unlinked tap was called with exactly what was broadcast between its registration and its removal. */
  ghost predicate UnlinkedLog(s: State, t: Tap) {
    && t in s.logs && t in s.from && t in s.until
    && s.from[t] <= s.until[t] <= |s.broadcast|
    && s.logs[t] == s.broadcast[s.from[t]..s.until[t]]
  }

  ghost predicate LogsSound(s: State)
    requires SendSound(s)
  {
    && (forall t :: t in s.taps ==> ListedLog(s, t))
    && (forall t :: t in s.until ==> UnlinkedLog(s, t))
  }

  ghost predicate Inv(s: State) {
    LocksHeld(s) && TapsOwned(s) && Distinct(s.taps) && SendSound(s) && LogsSound(s)
  }

  lemma {:induction false} RemovedDistinct(taps: seq<Tap>, t: Tap)
    requires Distinct(taps)
    ensures Distinct(Removed(taps, t))
    decreases |taps|
  {
    if taps != [] {
      RemovedDistinct(taps[1..], t);
      assert taps[0] !in taps[1..];
    }
  }

  /** Only thread `i` moved. */
  ghost predicate Moved(s: State, i: Thread, s': State) {
    forall j: Thread :: j != i ==> s'.Pc(j) == s.Pc(j)
  }

  /** The lock after thread `i` moved: taken from nobody, given up, or as it was. */
  function Lock(held: Option<Thread>, i: Thread, before: bool, after: bool): Option<Thread> {
    if after && !before then Some(i) else if before && !after then None else held
  }

  lemma {:induction false} StepMovesOne(s: State, a: Action)
    requires Next(s, a).Some?
    ensures Moved(s, a.i, Next(s, a).value)
  {
  }

  lemma {:induction false} StepTakesDispatch(s: State, a: Action)
    requires Next(s, a).Some?
    ensures var s' := Next(s, a).value;
            var before, after := HoldsDispatch(s.Pc(a.i)), HoldsDispatch(s'.Pc(a.i));
            s'.dispatch == Lock(s.dispatch, a.i, before, after) && (after && !before ==> s.dispatch.None?)
  {
  }

  /** The steps that take or give up the registry. */
  predicate TouchesRegistry(a: Action) {
    a.LockRegistry? || a.Snapshot? || a.Register? || a.Unlink?
  }

  lemma {:induction false} RegistryUntouched(s: State, a: Action)
    requires Next(s, a).Some? && !TouchesRegistry(a)
    ensures var s' := Next(s, a).value;
            s'.registry == s.registry && (HoldsRegistry(s.Pc(a.i)) <==> HoldsRegistry(s'.Pc(a.i)))
  {
  }

  lemma {:induction false} StepTakesRegistry(s: State, a: Action)
    requires Next(s, a).Some?
    ensures var s' := Next(s, a).value;
            var before, after := HoldsRegistry(s.Pc(a.i)), HoldsRegistry(s'.Pc(a.i));
            s'.registry == Lock(s.registry, a.i, before, after) && (after && !before ==> s.registry.None?)
  {
    if !TouchesRegistry(a) {
      RegistryUntouched(s, a);
    }
  }

  lemma {:induction false} LocksFollow(s: State, i: Thread, s': State)
    requires LocksHeld(s) && Moved(s, i, s')
    requires s'.dispatch == Lock(s.dispatch, i, HoldsDispatch(s.Pc(i)), HoldsDispatch(s'.Pc(i)))
    requires HoldsDispatch(s'.Pc(i)) && !HoldsDispatch(s.Pc(i)) ==> s.dispatch.None?
    requires s'.registry == Lock(s.registry, i, HoldsRegistry(s.Pc(i)), HoldsRegistry(s'.Pc(i)))
    requires HoldsRegistry(s'.Pc(i)) && !HoldsRegistry(s.Pc(i)) ==> s.registry.None?
    ensures LocksHeld(s')
  {
    assert HoldsDispatch(s.Pc(i)) <==> s.dispatch == Some(i);
    assert HoldsRegistry(s.Pc(i)) <==> s.registry == Some(i);
    forall j: Thread
      ensures HoldsDispatch(s'.Pc(j)) <==> s'.dispatch == Some(j)
      ensures HoldsRegistry(s'.Pc(j)) <==> s'.registry == Some(j)
    {
      assert HoldsDispatch(s.Pc(j)) <==> s.dispatch == Some(j);
      assert HoldsRegistry(s.Pc(j)) <==> s.registry == Some(j);
    }
  }

  lemma {:induction false} KeepsLocks(s: State, a: Action)
    requires LocksHeld(s) && Next(s, a).Some?
    ensures LocksHeld(Next(s, a).value)
  {
    StepMovesOne(s, a);
    StepTakesDispatch(s, a);
    StepTakesRegistry(s, a);
    LocksFollow(s, a.i, Next(s, a).value);
  }

  // ---------------------------------------------------------------- ownership, step by step

  /** A step that touches neither the tap list nor what thread `i` is dropping. */
  ghost predicate SameOwners(s: State, i: Thread, s': State) {
    && Moved(s, i, s')
    && s'.taps == s.taps && s'.nextId == s.nextId && s'.guards == s.guards && s'.dropped == s.dropped &&
      s'.until == s.until
    && (Dropping(s.Pc(i)) <==> Dropping(s'.Pc(i)))
    && (Dropping(s.Pc(i)) ==> s'.Pc(i).tap == s.Pc(i).tap && (s'.Pc(i).DropDone? <==> s.Pc(i).DropDone?))
  }

  lemma {:induction false} OwnersStay(s: State, i: Thread, s': State)
    requires TapsOwned(s) && SameOwners(s, i, s')
    ensures TapsOwned(s')
  {
    assert forall j: Thread :: Dropping(s'.Pc(j)) <==> Dropping(s.Pc(j));
    assert forall j: Thread :: Dropping(s.Pc(j)) ==>
      s'.Pc(j).tap == s.Pc(j).tap && (s'.Pc(j).DropDone? <==> s.Pc(j).DropDone?);
  }

  lemma {:induction false} OwnersAfterBeginDrop(s: State, i: Thread, t: Tap, s': State)
    requires TapsOwned(s) && s.Pc(i).Idle? && t in s.guards
    requires s' == s.At(i, DropWaiting(t)).(guards := s.guards - {t})
    ensures TapsOwned(s')
  {
    assert forall j: Thread :: s'.Pc(j) == if j == i then DropWaiting(t) else s.Pc(j);
  }

  lemma {:induction false} OwnersAfterRegister(s: State, i: Thread, s': State)
    requires TapsOwned(s) && s.Pc(i).Registering? && Moved(s, i, s') && s'.Pc(i).Idle?
    requires s'.taps == s.taps + [s.nextId] && s'.nextId == s.nextId + 1 && s'.guards == s.guards + {s.nextId}
    requires s'.dropped == s.dropped && s'.until == s.until
    ensures TapsOwned(s')
  {
    assert forall t :: t in s'.taps <==> t in s.taps || t == s.nextId;
  }

  lemma {:induction false} OwnersAfterUnlink(s: State, i: Thread, s': State)
    requires TapsOwned(s) && s.Pc(i).DropEditing? && Moved(s, i, s') && s'.Pc(i) == DropDone(s.Pc(i).tap)
    requires s'.taps == Removed(s.taps, s.Pc(i).tap) && s'.until.Keys == s.until.Keys + {s.Pc(i).tap}
    requires s'.nextId == s.nextId && s'.guards == s.guards && s'.dropped == s.dropped
    ensures TapsOwned(s')
  {
  }

  lemma {:induction false} OwnersAfterReturn(s: State, i: Thread, s': State)
    requires TapsOwned(s) && s.Pc(i).DropDone? && Moved(s, i, s') && s'.Pc(i).Idle?
    requires s'.dropped == s.dropped + {s.Pc(i).tap}
    requires s'.taps == s.taps && s'.nextId == s.nextId && s'.guards == s.guards && s'.until == s.until
    ensures TapsOwned(s')
  {
  }

  predicate ChangesOwners(s: State, a: Action) {
    a.BeginDrop? || a.Register? || a.Unlink? || (a.Return? && s.Pc(a.i).DropDone?)
  }

  lemma {:induction false} QuietStep(s: State, a: Action)
    requires Next(s, a).Some? && !ChangesOwners(s, a)
    ensures SameOwners(s, a.i, Next(s, a).value)
  {
    StepMovesOne(s, a);
    QuietFields(s, a);
    QuietDropping(s, a);
  }

  lemma {:induction false} QuietFields(s: State, a: Action)
    requires Next(s, a).Some? && !ChangesOwners(s, a)
    ensures var s' := Next(s, a).value;
            s'.taps == s.taps && s'.nextId == s.nextId && s'.guards == s.guards && s'.dropped == s.dropped &&
              s'.until == s.until
  {
  }

  lemma {:induction false} QuietDropping(s: State, a: Action)
    requires Next(s, a).Some? && !ChangesOwners(s, a)
    ensures var before, after := s.Pc(a.i), Next(s, a).value.Pc(a.i);
            && (Dropping(before) <==> Dropping(after))
            && (Dropping(before) ==> after.tap == before.tap && (after.DropDone? <==> before.DropDone?))
  {
  }

  lemma {:induction false} KeepsOwnership(s: State, a: Action)
    requires TapsOwned(s) && Next(s, a).Some?
    ensures TapsOwned(Next(s, a).value)
  {
    if !ChangesOwners(s, a) {
      QuietStep(s, a);
      OwnersStay(s, a.i, Next(s, a).value);
    } else {
      StepMovesOne(s, a);
      match a
      case BeginDrop(i, tap) => OwnersAfterBeginDrop(s, i, tap, Next(s, a).value);
      case Register(i) => OwnersAfterRegister(s, i, Next(s, a).value);
      case Unlink(i) => OwnersAfterUnlink(s, i, Next(s, a).value);
      case Return(i) => OwnersAfterReturn(s, i, Next(s, a).value);
    }
  }

  // ---------------------------------------------------------------- logs, step by step

  /** The position of the send in progress, if its taps are fixed. */
  function Flight(s: State): Option<Pc> {
    if s.dispatch.Some? && s.Pc(s.dispatch.value).Sending? then Some(s.Pc(s.dispatch.value)) else None
  }

  ghost predicate Sound(s: State) {
    Distinct(s.taps) && SendSound(s) && LogsSound(s)
  }

  predicate ChangesLogs(a: Action) {
    a.Snapshot? || a.StartCall? || a.EndCall? || a.Broadcast? || a.Register? || a.Unlink?
  }

  ghost predicate SameLogs(s: State, s': State) {
    && s'.taps == s.taps && s'.broadcast == s.broadcast && s'.logs == s.logs && s'.from == s.from && s'.until == s.until
    && Flight(s') == Flight(s)
  }

  lemma {:induction false} LogsStay(s: State, s': State)
    requires Sound(s) && SameLogs(s, s')
    ensures Sound(s')
  {
    assert s'.InFlight() == s.InFlight();
    assert forall t :: t in s.taps ==> ListedLog(s', t) == ListedLog(s, t);
    assert forall t :: t in s.until ==> UnlinkedLog(s', t) == UnlinkedLog(s, t);
  }

  lemma {:induction false} QuietLogs(s: State, a: Action)
    requires LocksHeld(s) && Next(s, a).Some? && !ChangesLogs(a)
    ensures SameLogs(s, Next(s, a).value)
  {
    QuietLogFields(s, a);
    QuietFlight(s, a);
  }

  lemma {:induction false} QuietLogFields(s: State, a: Action)
    requires Next(s, a).Some? && !ChangesLogs(a)
    ensures var s' := Next(s, a).value;
            s'.taps == s.taps && s'.broadcast == s.broadcast && s'.logs == s.logs && s'.from == s.from &&
              s'.until == s.until
  {
  }

  lemma {:induction false} QuietFlight(s: State, a: Action)
    requires LocksHeld(s) && Next(s, a).Some? && !ChangesLogs(a)
    ensures Flight(Next(s, a).value) == Flight(s)
  {
    assert HoldsDispatch(s.Pc(a.i)) <==> s.dispatch == Some(a.i);
  }

  lemma {:induction false} LogsAfterSnapshot(s: State, i: Thread, event: Event, s': State)
    requires Sound(s) && s.dispatch == Some(i) && s.Pc(i) == SendReading(event)
    requires s' == s.At(i, Sending(event, s.taps, 0, false)).(registry := None)
    ensures Sound(s')
  {
    forall t | t in s.taps ensures ListedLog(s', t) {
      assert ListedLog(s, t);
      assert s.broadcast[s.from[t]..] + [] == s.broadcast[s.from[t]..];
    }
    assert forall t :: t in s.until ==> UnlinkedLog(s, t);
  }

  lemma {:induction false} LogsAfterStartCall(s: State, i: Thread, pc: Pc, s': State)
    requires Sound(s) && s.dispatch == Some(i) && s.Pc(i) == pc && pc.Sending? && !pc.calling &&
          pc.called < |pc.snapshot|
    requires forall t :: t in s.until ==> t !in s.taps
    requires pc.snapshot[pc.called] in s.logs
    requires var t := pc.snapshot[pc.called];
             s' == s.At(i, pc.(calling := true)).(logs := s.logs[t := s.logs[t] + [pc.event]])
    ensures Sound(s')
  {
    var now := pc.snapshot[pc.called];
    var pc' := pc.(calling := true);
    assert Seen(pc') == Seen(pc) + [now];
    assert now !in Seen(pc);
    forall t | t in s.taps ensures ListedLog(s', t) {
      assert ListedLog(s, t);
      assert t in Seen(pc') <==> t in Seen(pc) || t == now;
      if t in pc.snapshot {
        assert s.broadcast[s.from[t]..] + [] == s.broadcast[s.from[t]..];
      }
    }
    forall t | t in s.until ensures UnlinkedLog(s', t) {
      assert UnlinkedLog(s, t) && t != now;
    }
  }

  lemma {:induction false} LogsAfterEndCall(s: State, i: Thread, pc: Pc, s': State)
    requires Sound(s) && s.dispatch == Some(i) && s.Pc(i) == pc && pc.Sending? && pc.calling
    requires s' == s.At(i, pc.(calling := false, called := pc.called + 1))
    ensures Sound(s')
  {
    assert Seen(pc.(calling := false, called := pc.called + 1)) == Seen(pc);
    forall t | t in s.taps ensures ListedLog(s', t) {
      assert ListedLog(s, t);
    }
    assert forall t :: t in s.until ==> UnlinkedLog(s, t);
  }

  lemma {:induction false} LogsAfterBroadcast(s: State, i: Thread, pc: Pc, s': State)
    requires Sound(s) && s.dispatch == Some(i) && s.Pc(i) == pc && pc.Sending? && !pc.calling &&
          pc.called == |pc.snapshot|
    requires s' == s.At(i, SendDone).(broadcast := s.broadcast + [pc.event])
    ensures Sound(s')
  {
    assert Seen(pc) == pc.snapshot;
    forall t | t in s.taps ensures ListedLog(s', t) {
      assert ListedLog(s, t);
      if t in pc.snapshot {
        assert s'.broadcast[s.from[t]..] == s.broadcast[s.from[t]..] + [pc.event];
      }
    }
    forall t | t in s.until ensures UnlinkedLog(s', t) {
      assert UnlinkedLog(s, t);
      assert s'.broadcast[s.from[t]..s.until[t]] == s.broadcast[s.from[t]..s.until[t]];
    }
  }

  lemma {:induction false} LogsAfterRegister(s: State, i: Thread, s': State)
    requires Sound(s) && s.nextId !in s.taps && s.nextId !in s.until && s.dispatch != Some(i) && Moved(s, i, s')
    requires s'.taps == s.taps + [s.nextId] && s'.broadcast == s.broadcast && s'.dispatch == s.dispatch &&
          s'.until == s.until
    requires s'.logs == s.logs[s.nextId := []] && s'.from == s.from[s.nextId := |s.broadcast + s.InFlight()|]
    ensures Sound(s')
  {
    assert Flight(s') == Flight(s) && s'.InFlight() == s.InFlight();
    forall t | t in s'.taps ensures ListedLog(s', t) {
      if t in s.taps {
        assert ListedLog(s, t);
      } else {
        assert t == s.nextId;
      }
    }
    forall t | t in s.until ensures UnlinkedLog(s', t) {
      assert UnlinkedLog(s, t);
    }
  }

  lemma {:induction false} LogsAfterUnlink(s: State, i: Thread, tap: Tap, s': State)
    requires Sound(s) && s.dispatch == Some(i) && s.Pc(i) == DropEditing(tap) && tap in s.taps
    requires s'.dispatch == s.dispatch && s'.Pc(i) == DropDone(tap)
    requires s'.taps == Removed(s.taps, tap) && s'.until == s.until[tap := |s.broadcast|]
    requires s'.broadcast == s.broadcast && s'.logs == s.logs && s'.from == s.from
    ensures Sound(s')
  {
    RemovedDistinct(s.taps, tap);
    forall t | t in s'.taps ensures ListedLog(s', t) {
      assert ListedLog(s, t);
    }
    forall t | t in s'.until ensures UnlinkedLog(s', t) {
      if t == tap {
        assert ListedLog(s, tap);
        assert s.broadcast[s.from[t]..|s.broadcast|] == s.broadcast[s.from[t]..];
      } else {
        assert UnlinkedLog(s, t);
      }
    }
  }

  lemma {:induction false} KeepsLogs(s: State, a: Action)
    requires LocksHeld(s) && TapsOwned(s) && Sound(s) && Next(s, a).Some?
    ensures Sound(Next(s, a).value)
  {
    if !ChangesLogs(a) {
      QuietLogs(s, a);
      LogsStay(s, Next(s, a).value);
    } else {
      var pc := s.Pc(a.i);
      assert HoldsDispatch(pc) <==> s.dispatch == Some(a.i);
      match a
      case Snapshot(i) => LogsAfterSnapshot(s, i, pc.event, Next(s, a).value);
      case StartCall(i) =>
        assert pc.snapshot[pc.called] in pc.snapshot && ListedLog(s, pc.snapshot[pc.called]);
        LogsAfterStartCall(s, i, pc, Next(s, a).value);
      case EndCall(i) => LogsAfterEndCall(s, i, pc, Next(s, a).value);
      case Broadcast(i) => LogsAfterBroadcast(s, i, pc, Next(s, a).value);
      case Register(i) =>
        StepMovesOne(s, a);
        LogsAfterRegister(s, i, Next(s, a).value);
      case Unlink(i) => LogsAfterUnlink(s, i, pc.tap, Next(s, a).value);
    }
  }

  lemma {:induction false} StepKeepsInv(s: State, a: Action)
    requires Inv(s) && Next(s, a).Some?
    ensures Inv(Next(s, a).value)
  {
    KeepsLocks(s, a);
    KeepsOwnership(s, a);
    KeepsLogs(s, a);
  }

  // ---------------------------------------------------------------- whole runs

  /** Any interleaving: each state follows from the one before it by one step of some thread. */
  ghost predicate Run(states: seq<State>, actions: seq<Action>) {
    && |states| == |actions| + 1
    && states[0] == START
    && forall k :: 0 <= k < |actions| ==> StepsAt(states, actions, k)
  }

  ghost predicate StepsAt(states: seq<State>, actions: seq<Action>, k: nat)
    requires |states| == |actions| + 1 && k < |actions|
  {
    Next(states[k], actions[k]) == Some(states[k + 1])
  }

  lemma {:induction false} RunKeepsInv(states: seq<State>, actions: seq<Action>, k: nat)
    requires Run(states, actions) && k < |states|
    ensures Inv(states[k])
    decreases k
  {
    if k == 0 {
      assert Inv(START);
    } else {
      var s, a := states[k - 1], actions[k - 1];
      assert Inv(s) by { RunKeepsInv(states, actions, k - 1); }
      assert Next(s, a) == Some(states[k]) by { RunStep(states, actions, k - 1); }
      StepKeepsInv(s, a);
    }
  }

  /**
   At every moment of every run, what a tap has been called with is a contiguous stretch of the order in which
   events are broadcast, counting the one in flight. It starts where the tap was registered, and once the tap is
   unlinked it ends where it was unlinked.
   */
  lemma {:induction false} TapSeesContiguousStretch(states: seq<State>, actions: seq<Action>, k: nat, t: Tap)
    requires Run(states, actions) && k < |states| && t < states[k].nextId
    ensures var s := states[k];
            && t in s.logs && t in s.from
            && var order := s.broadcast + s.InFlight();
               && s.from[t] + |s.logs[t]| <= |order|
               && s.logs[t] == order[s.from[t]..s.from[t] + |s.logs[t]|]
               && (t !in s.taps ==> t in s.until && s.until[t] == s.from[t] + |s.logs[t]|)
               && (t in s.taps ==> |s.broadcast| <= s.from[t] + |s.logs[t]|)
  {
    RunKeepsInv(states, actions, k);
    var s := states[k];
    if t in s.taps {
      assert ListedLog(s, t);
    } else {
      assert UnlinkedLog(s, t);
    }
  }

  /** The threads that broadcast, in order. */
  function Senders(actions: seq<Action>): seq<Thread>
    decreases |actions|
  {
    if actions == [] then []
    else
      var a := actions[|actions| - 1];
      Senders(actions[..|actions| - 1]) + (if a.Broadcast? then [a.i] else [])
  }

  /** The events thread `i` was given to send, in order. */
  function Given(actions: seq<Action>, i: Thread): seq<Event>
    decreases |actions|
  {
    if actions == [] then []
    else
      var a := actions[|actions| - 1];
      Given(actions[..|actions| - 1], i) + (if a.BeginSend? && a.i == i then [a.event] else [])
  }

  /** Those of `events` that thread `i` sent. */
  function SentBy(events: seq<Event>, senders: seq<Thread>, i: Thread): seq<Event>
    requires |events| == |senders|
    decreases |events|
  {
    if events == [] then []
    else
      var n := |events| - 1;
      SentBy(events[..n], senders[..n], i) + (if senders[n] == i then [events[n]] else [])
  }

  /** The event of a send that has begun and is not broadcast yet. */
  function Pending(pc: Pc): seq<Event> {
    if pc.SendWaiting? || pc.SendLocked? || pc.SendReading? || pc.Sending? then [pc.event] else []
  }

  lemma {:induction false} SentOneMore(events: seq<Event>, senders: seq<Thread>, e: Event, j: Thread, i: Thread)
    requires |events| == |senders|
    ensures SentBy(events + [e], senders + [j], i) == SentBy(events, senders, i) + (if j == i then [e] else [])
  {
    assert (events + [e])[..|events|] == events && (senders + [j])[..|senders|] == senders;
  }

  /** A step broadcasts at most the event its thread has pending, and only then is it pending no more. */
  lemma {:induction false} StepSends(s: State, a: Action)
    requires Next(s, a).Some?
    ensures var s', before := Next(s, a).value, Pending(s.Pc(a.i));
            && (a.Broadcast? ==> |before| == 1 && s'.broadcast == s.broadcast + before && Pending(s'.Pc(a.i)) == [])
            && (!a.Broadcast? ==> s'.broadcast == s.broadcast)
            && (a.BeginSend? ==> before == [] && Pending(s'.Pc(a.i)) == [a.event])
            && (!a.Broadcast? && !a.BeginSend? ==> Pending(s'.Pc(a.i)) == before)
  {
  }

  /** One step, seen from thread `i`. */
  lemma {:induction false} SendsOneMore(s: State, a: Action, senders: seq<Thread>, given: seq<Event>, i: Thread)
    requires Next(s, a).Some? && |senders| == |s.broadcast|
    requires given == SentBy(s.broadcast, senders, i) + Pending(s.Pc(i))
    ensures var s' := Next(s, a).value;
            var senders' := senders + (if a.Broadcast? then [a.i] else []);
            && |senders'| == |s'.broadcast|
            && given + (if a.BeginSend? && a.i == i then [a.event] else [])
               == SentBy(s'.broadcast, senders', i) + Pending(s'.Pc(i))
  {
    var s', before, sent := Next(s, a).value, Pending(s.Pc(a.i)), SentBy(s.broadcast, senders, i);
    StepSends(s, a);
    assert a.i != i ==> s'.Pc(i) == s.Pc(i) by { StepMovesOne(s, a); }
    if a.Broadcast? {
      assert before == [before[0]];
      assert SentBy(s'.broadcast, senders + [a.i], i) == sent + (if a.i == i then before else []) by {
        SentOneMore(s.broadcast, senders, before[0], a.i, i);
      }
      Settled(given, sent, Pending(s.Pc(i)));
    } else {
      assert senders + [] == senders;
      Settled(given, sent, Pending(s.Pc(i)));
    }
  }

  lemma {:induction false} Settled(given: seq<Event>, sent: seq<Event>, pending: seq<Event>)
    requires given == sent + pending
    ensures given + [] == sent + pending && given + [] == (sent + []) + pending && given + [] == (sent + pending) + []
    ensures pending == [] ==> given == sent
  {
  }

  /**
   Every event given to a send is broadcast by that send exactly once: for each thread, the events given to it are
   those it has broadcast, in that order, and then the one it is still sending, if any.
   */
  lemma {:induction false} EverySendIsBroadcastOnce(states: seq<State>, actions: seq<Action>, i: Thread)
    requires Run(states, actions)
    ensures var s := states[|actions|];
            && |s.broadcast| == |Senders(actions)|
            && Given(actions, i) == SentBy(s.broadcast, Senders(actions), i) + Pending(s.Pc(i))
    decreases |actions|
  {
    if actions != [] {
      var n := |actions| - 1;
      var front := actions[..n];
      assert Run(states[..|actions|], front) by { RunUpTo(states, actions); }
      EverySendIsBroadcastOnce(states[..|actions|], front, i);
      RunStep(states, actions, n);
      SendsOneMore(states[n], actions[n], Senders(front), Given(front, i), i);
    }
  }

  lemma {:induction false} RunUpTo(states: seq<State>, actions: seq<Action>)
    requires Run(states, actions) && actions != []
    ensures Run(states[..|actions|], actions[..|actions| - 1])
  {
    var states', actions' := states[..|actions|], actions[..|actions| - 1];
    forall k | 0 <= k < |actions'| ensures StepsAt(states', actions', k) {
      assert StepsAt(states, actions, k);
    }
  }

  /** No callback of `t` is running or still to be made by a send in progress. */
  ghost predicate Quiescent(s: State, t: Tap) {
    forall i: Thread :: s.Pc(i).Sending? ==> t !in s.Pc(i).snapshot
  }

  lemma {:induction false} DroppedIsQuiescent(s: State, t: Tap)
    requires Inv(s) && t in s.dropped
    ensures Quiescent(s, t)
  {
    forall i: Thread | s.Pc(i).Sending? ensures t !in s.Pc(i).snapshot {
      assert HoldsDispatch(s.Pc(i));
    }
  }

  lemma {:induction false} DroppedStays(s: State, a: Action, t: Tap)
    requires Inv(s) && Next(s, a).Some? && t in s.dropped
    ensures t in Next(s, a).value.dropped && t in s.logs && t in Next(s, a).value.logs &&
          Next(s, a).value.logs[t] == s.logs[t]
  {
    DroppedIsQuiescent(s, t);
    assert UnlinkedLog(s, t);
  }

  /** Once a guard's drop has returned, its tap is never called again and no call of it is still running. */
  lemma {:induction false} QuietAfterDrop(states: seq<State>, actions: seq<Action>, j: nat, k: nat, t: Tap)
    requires Run(states, actions) && j <= k < |states| && t in states[j].dropped
    ensures t in states[k].dropped && Quiescent(states[k], t)
    ensures t in states[j].logs && t in states[k].logs && states[k].logs[t] == states[j].logs[t]
    decreases k
  {
    if j < k {
      QuietAfterDrop(states, actions, j, k - 1, t);
      QuietOneStep(states, actions, k - 1, t);
    }
    QuietNow(states, actions, k, t);
  }

  lemma {:induction false} QuietOneStep(states: seq<State>, actions: seq<Action>, k: nat, t: Tap)
    requires Run(states, actions) && k < |actions| && t in states[k].dropped
    ensures t in states[k + 1].dropped
    ensures t in states[k].logs && t in states[k + 1].logs && states[k + 1].logs[t] == states[k].logs[t]
  {
    RunKeepsInv(states, actions, k);
    RunStep(states, actions, k);
    DroppedStays(states[k], actions[k], t);
  }

  lemma {:induction false} QuietNow(states: seq<State>, actions: seq<Action>, k: nat, t: Tap)
    requires Run(states, actions) && k < |states| && t in states[k].dropped
    ensures t in states[k].logs && Quiescent(states[k], t)
  {
    RunKeepsInv(states, actions, k);
    assert UnlinkedLog(states[k], t);
    DroppedIsQuiescent(states[k], t);
  }

  lemma {:induction false} RunStep(states: seq<State>, actions: seq<Action>, k: nat)
    requires Run(states, actions) && k < |actions|
    ensures Next(states[k], actions[k]) == Some(states[k + 1])
  {
    assert StepsAt(states, actions, k);
  }

  /** The thread's next step, were it the holder of whatever it waits for. */
  function Wanted(i: Thread, pc: Pc): Action {
    match pc
    case Idle => BeginRegister(i)
    case SendWaiting(_) => LockDispatch(i)
    case SendLocked(_) => LockRegistry(i)
    case SendReading(_) => Snapshot(i)
    case Sending(_, snapshot, called, calling) =>
      if calling then EndCall(i) else if called < |snapshot| then StartCall(i) else Broadcast(i)
    case SendDone => Return(i)
    case RegisterWaiting => LockRegistry(i)
    case Registering => Register(i)
    case DropWaiting(_) => LockDispatch(i)
    case DropLocked(_) => LockRegistry(i)
    case DropEditing(_) => Unlink(i)
    case DropDone(_) => Return(i)
  }

  /** The two locks never deadlock: while any thread is inside the bus, some thread inside it can take its next step. */
  lemma {:induction false} NoDeadlock(s: State, i: Thread)
    requires Inv(s) && !s.Pc(i).Idle?
    ensures exists j: Thread :: !s.Pc(j).Idle? && Next(s, Wanted(j, s.Pc(j))).Some?
  {
    var j := if s.registry.Some? then s.registry.value else if s.dispatch.Some? then s.dispatch.value else i;
    assert HoldsRegistry(s.Pc(j)) <==> s.registry == Some(j);
    assert HoldsDispatch(s.Pc(j)) <==> s.dispatch == Some(j);
    assert Next(s, Wanted(j, s.Pc(j))).Some?;
  }
}
