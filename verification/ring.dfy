/**
 The gateway ring's memory: which member answers, how often it has failed in a
 row, and which members were left and when. Every transition is a pure function
 from one `Health` to the next; callers interleave them under a mutex, so a run
 is a sequence of transitions in any order, by any number of callers.

 Instants are integers. Nothing here assumes that they arrive in order: a caller
 reads its clock before it takes the lock.
 */
module RingHealth {
  import opened Base

  const U32_MAX := 0xFFFF_FFFF

  type u32 = n: nat | n <= U32_MAX

  datatype Policy = Policy(failureThreshold: u32, cooldown: Option<nat>) {
    /** A threshold of zero is read as one. */
    function Threshold(): (r: u32)
      ensures r >= 1
    {
      if failureThreshold == 0 then 1 else failureThreshold
    }
  }

  datatype FailureKind = Counted | Immediate | NotTheMembersFault

  datatype Member = Member(streak: u32, probation: bool, leftAt: Option<int>) {
    function Succeeded(): Member { Member(0, false, None) }

    function Failed(): Member {
      this.(streak := if streak == U32_MAX then U32_MAX else streak + 1)
    }

    function Left(now: int): Member { Member(0, false, Some(now)) }

    function ReturnedTo(): Member { Member(0, leftAt.Some?, None) }

    predicate RestedFor(cooldown: nat, now: int) {
      leftAt.Some? && (if now < leftAt.value then 0 else now - leftAt.value) >= cooldown
    }
  }

  datatype Health = Health(current: nat, members: seq<Member>) {
    ghost predicate Valid() { current < |members| }

    function WithMember(index: nat, member: Member): (r: Health)
      requires index < |members|
    {
      this.(members := members[index := member])
    }

    function WithCurrent(index: nat): (r: Health)
      requires index < |members|
    {
      Health(index, members[index := members[index].ReturnedTo()])
    }
  }

  datatype Selection = Selection(index: nat, returned: bool)

  datatype Rotation = Rotation(from: nat, to: nat, afterFailures: u32)

  function Fresh(count: nat): (r: Health)
    requires count > 0
    ensures r.Valid()
  {
    Health(0, seq(count, i => Member(0, false, None)))
  }

  /** The least member at or after `from`, and before the current one, that has rested long enough. */
  function FirstRested(h: Health, cooldown: nat, now: int, from: nat): (r: Option<nat>)
    requires h.Valid() && from <= h.current
    ensures r.Some? ==> from <= r.value < h.current && h.members[r.value].RestedFor(cooldown, now)
    ensures r.Some? ==> forall i :: from <= i < r.value ==> !h.members[i].RestedFor(cooldown, now)
    ensures r.None? ==> forall i :: from <= i < h.current ==> !h.members[i].RestedFor(cooldown, now)
    decreases h.current - from
  {
    if from == h.current then None
    else if h.members[from].RestedFor(cooldown, now) then Some(from)
    else FirstRested(h, cooldown, now, from + 1)
  }

  function Select(h: Health, policy: Policy, now: int): (r: (Health, Selection))
    requires h.Valid()
  {
    var rested := if policy.cooldown.Some? then FirstRested(h, policy.cooldown.value, now, 0) else None;
    match rested
    case Some(index) => (h.WithCurrent(index), Selection(index, true))
    case None => (h, Selection(h.current, false))
  }

  function Succeed(h: Health, index: nat): (r: Health)
    requires index < |h.members|
  {
    h.WithMember(index, h.members[index].Succeeded())
  }

  /** The member `step` places after `index` in ring order; `AheadIsModulo` says this is a remainder. */
  function Ahead(index: nat, step: nat, count: nat): (r: nat)
    requires index < count && step <= count
    ensures r < count
  {
    if index + step < count then index + step else index + step - count
  }

  predicate Eligible(m: Member, cooldown: nat, now: int) {
    m.leftAt.None? || m.RestedFor(cooldown, now)
  }

  /** The least step from `step` on whose member may be taken: never left, or rested. */
  function FirstEligible(h: Health, index: nat, cooldown: nat, now: int, step: nat): (r: Option<nat>)
    requires h.Valid() && index < |h.members| && 1 <= step <= |h.members|
    ensures r.Some? ==> step <= r.value < |h.members|
    ensures r.Some? ==> Eligible(h.members[Ahead(index, r.value, |h.members|)], cooldown, now)
    ensures forall s :: step <= s < (if r.Some? then r.value else |h.members|) ==>
              !Eligible(h.members[Ahead(index, s, |h.members|)], cooldown, now)
    decreases |h.members| - step
  {
    if step == |h.members| then None
    else if Eligible(h.members[Ahead(index, step, |h.members|)], cooldown, now) then Some(step)
    else FirstEligible(h, index, cooldown, now, step + 1)
  }

  /** How far a rotation moves; zero in a ring of one. */
  function StepsAfter(h: Health, index: nat, policy: Policy, now: int): (r: nat)
    requires h.Valid() && index < |h.members|
    ensures r < |h.members|
  {
    var first := if |h.members| > 1 then 1 else 0;
    match policy.cooldown
    case None => first
    case Some(cooldown) =>
      match FirstEligible(h, index, cooldown, now, 1)
      case Some(step) => step
      case None => first
  }

  function NextAfter(h: Health, index: nat, policy: Policy, now: int): (r: nat)
    requires h.Valid() && index < |h.members|
    ensures r < |h.members|
  {
    Ahead(index, StepsAfter(h, index, policy, now), |h.members|)
  }

  function Fail(h: Health, index: nat, kind: FailureKind, policy: Policy, now: int): (r: (Health, Option<Rotation>))
    requires h.Valid() && index < |h.members|
  {
    if index != h.current || kind == NotTheMembersFault then (h, None)
    else
      var member := h.members[index].Failed();
      var rotate := kind == Immediate || member.probation || member.streak >= policy.Threshold();
      if !rotate then (h.WithMember(index, member), None)
      else
        var next := NextAfter(h, index, policy, now);
        (h.WithMember(index, member.Left(now)).WithCurrent(next),
         Some(Rotation(index, next, if kind == Immediate then 0 else member.streak)))
  }

  lemma {:induction false} AheadIsModulo(index: nat, step: nat, count: nat)
    requires index < count && step <= count
    ensures Ahead(index, step, count) == (index + step) % count
  {
    var x := index + step;
    if x < count {
      ModOf(x, count, 0, x);
    } else {
      ModOf(x, count, 1, x - count);
    }
  }

  lemma {:induction false} MultipleIsLarge(d: int, n: int)
    requires n >= 0
    ensures d >= 1 ==> d * n >= n
    ensures d <= -1 ==> d * n <= -n
  {
    if d >= 1 {
      assert d * n == (d - 1) * n + n;
    } else if d <= -1 {
      assert d * n == (d + 1) * n - n;
    }
  }

  lemma {:induction false} ModOf(x: nat, n: nat, q: nat, r: nat)
    requires n > 0 && r < n && x == q * n + r
    ensures x % n == r
  {
    var d := x / n - q;
    assert d * n == r - x % n by {
      assert x == (x / n) * n + x % n;
      assert (x / n) * n == q * n + d * n;
    }
    MultipleIsLarge(d, n);
  }

  // ---------------------------------------------------------------- runs

  datatype Action =
    | Choose(now: int)
    | Answered(index: nat)
    | Failure(index: nat, kind: FailureKind, now: int)

  /** What a transition did to the ring's position. */
  datatype Moved = Stayed | Returned(to: nat) | Rotated(rotation: Rotation)

  ghost predicate Legal(trace: seq<Action>, count: nat) {
    forall k :: 0 <= k < |trace| ==> trace[k].Choose? || trace[k].index < count
  }

  function Step(h: Health, policy: Policy, a: Action): (r: (Health, Moved))
    requires h.Valid() && (a.Choose? || a.index < |h.members|)
    ensures r.0.Valid() && |r.0.members| == |h.members|
  {
    match a
    case Choose(now) =>
      var (next, selection) := Select(h, policy, now);
      (next, if selection.returned then Returned(selection.index) else Stayed)
    case Answered(index) => (Succeed(h, index), Stayed)
    case Failure(index, kind, now) =>
      var (next, rotation) := Fail(h, index, kind, policy, now);
      (next, if rotation.Some? then Rotated(rotation.value) else Stayed)
  }

  function Play(h: Health, policy: Policy, trace: seq<Action>): (r: Health)
    requires h.Valid() && Legal(trace, |h.members|)
    ensures r.Valid() && |r.members| == |h.members|
    decreases |trace|
  {
    if trace == [] then h
    else Step(Play(h, policy, trace[..|trace| - 1]), policy, trace[|trace| - 1]).0
  }

  /** What the last transition of a run did. */
  function LastMove(h: Health, policy: Policy, trace: seq<Action>): Moved
    requires h.Valid() && Legal(trace, |h.members|) && trace != []
  {
    Step(Play(h, policy, trace[..|trace| - 1]), policy, trace[|trace| - 1]).1
  }

  lemma {:induction false} PlayConcat(h: Health, policy: Policy, t: seq<Action>, u: seq<Action>)
    requires h.Valid() && Legal(t, |h.members|) && Legal(u, |h.members|)
    ensures Legal(t + u, |h.members|)
    ensures Play(h, policy, t + u) == Play(Play(h, policy, t), policy, u)
    decreases |u|
  {
    if u == [] {
      assert t + u == t;
    } else {
      PlayConcat(h, policy, t, u[..|u| - 1]);
      assert (t + u)[..|t + u| - 1] == t + u[..|u| - 1];
    }
  }

  // ---------------------------------------------------------------- what every state keeps

  ghost predicate MemberSound(m: Member, policy: Policy) {
    && m.streak < policy.Threshold()
    && (m.leftAt.Some? || m.probation ==> m.streak == 0)
  }

  /**
   No streak reaches the threshold, resting and probationary members have none, and the current one is not resting.
   */
  ghost predicate Sound(h: Health, policy: Policy) {
    && h.Valid()
    && (forall i :: 0 <= i < |h.members| ==> MemberSound(h.members[i], policy))
    && h.members[h.current].leftAt.None?
  }

  lemma {:induction false} StepSound(h: Health, policy: Policy, a: Action)
    requires Sound(h, policy) && (a.Choose? || a.index < |h.members|)
    ensures Sound(Step(h, policy, a).0, policy)
  {
  }

  lemma {:induction false} PlaySound(h: Health, policy: Policy, trace: seq<Action>)
    requires Sound(h, policy) && Legal(trace, |h.members|)
    ensures Sound(Play(h, policy, trace), policy)
    decreases |trace|
  {
    if trace != [] {
      PlaySound(h, policy, trace[..|trace| - 1]);
      StepSound(Play(h, policy, trace[..|trace| - 1]), policy, trace[|trace| - 1]);
    }
  }

  /** Counted failures of the then-current member since the ring last arrived at it or it last answered. */
  function CountedSince(h: Health, policy: Policy, trace: seq<Action>): nat
    requires h.Valid() && Legal(trace, |h.members|)
    decreases |trace|
  {
    if trace == [] then 0
    else
      var front, a := trace[..|trace| - 1], trace[|trace| - 1];
      var current := Play(h, policy, front).current;
      if LastMove(h, policy, trace) != Stayed || a == Answered(current) then 0
      else if a.Failure? && a.index == current && a.kind == Counted then CountedSince(h, policy, front) + 1
      else CountedSince(h, policy, front)
  }

  lemma {:induction false} StreakStep(h: Health, policy: Policy, a: Action)
    requires Sound(h, policy) && (a.Choose? || a.index < |h.members|)
    ensures var (h', moved) := Step(h, policy, a);
            h'.members[h'.current].streak ==
              if moved != Stayed || a == Answered(h.current) then 0
              else if a.Failure? && a.index == h.current && a.kind == Counted then h.members[h.current].streak + 1
              else h.members[h.current].streak
  {
  }

  lemma {:induction false} StreakIsCount(count: nat, policy: Policy, trace: seq<Action>)
    requires count > 0 && Legal(trace, count)
    ensures var h := Play(Fresh(count), policy, trace);
            h.members[h.current].streak == CountedSince(Fresh(count), policy, trace)
    decreases |trace|
  {
    if trace != [] {
      var front := trace[..|trace| - 1];
      StreakIsCount(count, policy, front);
      var h := Play(Fresh(count), policy, front);
      assert Sound(h, policy) by { PlaySound(Fresh(count), policy, front); }
      StreakStep(h, policy, trace[|trace| - 1]);
    }
  }

  /** The last transition brought the ring to `m`. */
  predicate Arrives(moved: Moved, m: nat) {
    moved == Returned(m) || (moved.Rotated? && moved.rotation.to == m)
  }

  /** The ring rotated out of `m`, has not been back, and `m` has not answered since. */
  ghost predicate Away(h: Health, policy: Policy, trace: seq<Action>, m: nat)
    requires h.Valid() && Legal(trace, |h.members|)
    decreases |trace|
  {
    trace != [] &&
    var moved := LastMove(h, policy, trace);
    if Arrives(moved, m) then false
    else if moved.Rotated? && moved.rotation.from == m then true
    else trace[|trace| - 1] != Answered(m) && Away(h, policy, trace[..|trace| - 1], m)
  }

  /** When the ring last rotated out of `m`. */
  ghost function LastLeft(h: Health, policy: Policy, trace: seq<Action>, m: nat): Option<int>
    requires h.Valid() && Legal(trace, |h.members|)
    decreases |trace|
  {
    if trace == [] then None
    else
      var moved := LastMove(h, policy, trace);
      if moved.Rotated? && moved.rotation.from == m then Some(trace[|trace| - 1].now)
      else LastLeft(h, policy, trace[..|trace| - 1], m)
  }

  /** The ring last came to `m` after having left it, has not rotated out again, and `m` has not answered since. */
  ghost predicate OnProbation(h: Health, policy: Policy, trace: seq<Action>, m: nat)
    requires h.Valid() && Legal(trace, |h.members|)
    decreases |trace|
  {
    trace != [] &&
    var moved, front := LastMove(h, policy, trace), trace[..|trace| - 1];
    if Arrives(moved, m) then Away(h, policy, front, m) || (moved.Rotated? && moved.rotation.from == m)
    else if moved.Rotated? && moved.rotation.from == m then false
    else trace[|trace| - 1] != Answered(m) && OnProbation(h, policy, front, m)
  }

  /** The marks every member carries, told by what happened. */
  ghost predicate MarksTold(h: Health, policy: Policy, trace: seq<Action>, h': Health)
    requires h.Valid() && Legal(trace, |h.members|)
  {
    forall m :: 0 <= m < |h'.members| ==> MarkTold(h, policy, trace, m, h'.members[m])
  }

  ghost predicate MarkTold(h: Health, policy: Policy, trace: seq<Action>, m: nat, member: Member)
    requires h.Valid() && Legal(trace, |h.members|)
  {
    && (member.leftAt.Some? <==> Away(h, policy, trace, m))
    && (member.leftAt.Some? ==> member.leftAt == LastLeft(h, policy, trace, m))
    && (member.probation <==> OnProbation(h, policy, trace, m))
  }

  lemma {:induction false} MarksAreHistory(count: nat, policy: Policy, trace: seq<Action>)
    requires count > 0 && Legal(trace, count)
    ensures MarksTold(Fresh(count), policy, trace, Play(Fresh(count), policy, trace))
    decreases |trace|
  {
    var h0, h' := Fresh(count), Play(Fresh(count), policy, trace);
    if trace != [] {
      var front := trace[..|trace| - 1];
      MarksAreHistory(count, policy, front);
      assert Sound(Play(h0, policy, front), policy) by { PlaySound(h0, policy, front); }
      forall m | 0 <= m < |h'.members| ensures MarkTold(h0, policy, trace, m, h'.members[m]) {
        assert MarkTold(h0, policy, front, m, Play(h0, policy, front).members[m]);
        MarkStep(h0, policy, trace, m);
      }
    }
  }

  lemma {:induction false} MarkStep(h0: Health, policy: Policy, trace: seq<Action>, m: nat)
    requires h0.Valid() && Legal(trace, |h0.members|) && trace != [] && m < |h0.members|
    requires var h := Play(h0, policy, trace[..|trace| - 1]);
             Sound(h, policy) && MarkTold(h0, policy, trace[..|trace| - 1], m, h.members[m])
    ensures MarkTold(h0, policy, trace, m, Play(h0, policy, trace).members[m])
  {
    var a, h := trace[|trace| - 1], Play(h0, policy, trace[..|trace| - 1]);
    if Step(h, policy, a).1 != Stayed {
      ArrivalStartsOver(h, policy, a);
    } else {
      StayMarks(h, policy, a);
    }
  }

  /** Where the ring stays, a success clears the member's marks and nothing else touches any. */
  lemma {:induction false} StayMarks(h: Health, policy: Policy, a: Action)
    requires h.Valid() && (a.Choose? || a.index < |h.members|) && Step(h, policy, a).1 == Stayed
    ensures var h' := Step(h, policy, a).0;
            && h'.current == h.current
            && forall m :: 0 <= m < |h.members| ==>
                 if a == Answered(m) then h'.members[m] == Member(0, false, None)
                 else h'.members[m].leftAt == h.members[m].leftAt && h'.members[m].probation == h.members[m].probation
  {
  }

  /**
   After any interleaving, a failure rotates the ring exactly when it is the current member's own, and is
   immediate, or is counted and either the member is on probation or this is failure number `threshold` in a
   row. The rotation reports that number: the threshold, one on probation, zero when immediate.
   */
  lemma {:induction false} RotatesExactlyWhenDue(count: nat, policy: Policy, trace: seq<Action>,
                                                 index: nat, kind: FailureKind, now: int)
    requires count > 0 && Legal(trace, count) && index < count
    ensures var h0 := Fresh(count);
            var h := Play(h0, policy, trace);
            var row, probation := CountedSince(h0, policy, trace) + 1, OnProbation(h0, policy, trace, h.current);
            var moved := Step(h, policy, Failure(index, kind, now)).1;
            && row <= policy.Threshold()
            && (probation ==> row == 1)
            && (moved.Rotated? <==>
                index == h.current &&
                (kind == Immediate || (kind == Counted && (probation || row == policy.Threshold()))))
            && (moved.Rotated? ==> moved.rotation.from == index)
            && (moved.Rotated? ==> moved.rotation.afterFailures == if kind == Immediate then 0 else row)
            && !moved.Returned?
  {
    StreakIsCount(count, policy, trace);
    MarksAreHistory(count, policy, trace);
    PlaySound(Fresh(count), policy, trace);
  }

  /**
   Wherever the ring arrives, by drifting back or by rotating, the member starts over, on probation if it was left.
   */
  lemma {:induction false} ArrivalStartsOver(h: Health, policy: Policy, a: Action)
    requires Sound(h, policy) && (a.Choose? || a.index < |h.members|) && Step(h, policy, a).1 != Stayed
    ensures var (h', moved) := Step(h, policy, a);
            var to := if moved.Returned? then moved.to else moved.rotation.to;
            && h'.current == to
            && h'.members[to] ==
               Member(0, h.members[to].leftAt.Some? || (moved.Rotated? && moved.rotation.from == to), None)
            && (moved.Returned? ==> h'.members[to].probation)
            && (moved.Rotated? && moved.rotation.from != to ==>
                  h'.members[moved.rotation.from] == Member(0, false, Some(a.now)))
            && forall i :: 0 <= i < |h.members| && i != to && i != h.current ==> h'.members[i] == h.members[i]
  {
  }

  /** A rotation goes to the nearest member in ring order that may be taken; failing any, to the very next one. */
  lemma {:induction false} RotatesToNearest(h: Health, index: nat, policy: Policy, now: int)
    requires h.Valid() && index < |h.members| && |h.members| > 1
    ensures var count := |h.members|;
            var steps := StepsAfter(h, index, policy, now);
            && 1 <= steps < count && NextAfter(h, index, policy, now) != index
            && (policy.cooldown.None? ==> steps == 1)
            && (policy.cooldown.Some? ==>
                  && (forall s :: 1 <= s < steps ==>
                        !Eligible(h.members[Ahead(index, s, count)], policy.cooldown.value, now))
                  && (Eligible(h.members[NextAfter(h, index, policy, now)], policy.cooldown.value, now)
                      || (steps == 1 && forall i :: 0 <= i < count && i != index ==>
                                          !Eligible(h.members[i], policy.cooldown.value, now))))
  {
    var count := |h.members|;
    if policy.cooldown.Some? && FirstEligible(h, index, policy.cooldown.value, now, 1).None? {
      forall i | 0 <= i < count && i != index ensures !Eligible(h.members[i], policy.cooldown.value, now) {
        var s := if i > index then i - index else i - index + count;
        assert !Eligible(h.members[Ahead(index, s, count)], policy.cooldown.value, now);
      }
    }
  }

  // ---------------------------------------------------------------- one outage, one rotation

  function Arrivals(h: Health, policy: Policy, trace: seq<Action>, m: nat): nat
    requires h.Valid() && Legal(trace, |h.members|)
    decreases |trace|
  {
    if trace == [] then 0
    else
      var moved := LastMove(h, policy, trace);
      Arrivals(h, policy, trace[..|trace| - 1], m)
      + (if moved == Returned(m) || (moved.Rotated? && moved.rotation.to == m) then 1 else 0)
  }

  function Departures(h: Health, policy: Policy, trace: seq<Action>, m: nat): nat
    requires h.Valid() && Legal(trace, |h.members|)
    decreases |trace|
  {
    if trace == [] then 0
    else
      var moved := LastMove(h, policy, trace);
      Departures(h, policy, trace[..|trace| - 1], m) + (if moved.Rotated? && moved.rotation.from == m then 1 else 0)
  }

  /**
   From any state, over any interleaving, the ring rotates out of a member no more often than it arrived there
   (the member it started on counting as one arrival). So however many callers report a failure of a member the
   ring has left, none of those reports rotates it, and one stay ends in at most one rotation.
   */
  lemma {:induction false} DeparturesNeedArrivals(h: Health, policy: Policy, trace: seq<Action>, m: nat)
    requires h.Valid() && Legal(trace, |h.members|)
    ensures Departures(h, policy, trace, m) + (if Play(h, policy, trace).current == m then 1 else 0)
            <= Arrivals(h, policy, trace, m) + (if h.current == m then 1 else 0)
    decreases |trace|
  {
    if trace != [] {
      DeparturesNeedArrivals(h, policy, trace[..|trace| - 1], m);
    }
  }

  // ---------------------------------------------------------------- when a member may be taken again

  /** The ring is away from `m`, and it is at least one cooldown since it left; a cooldown of zero is no wait at all. */
  ghost predicate Due(h: Health, policy: Policy, trace: seq<Action>, m: nat, now: int)
    requires h.Valid() && Legal(trace, |h.members|) && policy.cooldown.Some?
  {
    && Away(h, policy, trace, m) && LastLeft(h, policy, trace, m).Some?
    && (policy.cooldown.value == 0 || now - LastLeft(h, policy, trace, m).value >= policy.cooldown.value)
  }

  /** The ring is away from `m`, and the cooldown is not over. */
  ghost predicate Resting(h: Health, policy: Policy, trace: seq<Action>, m: nat, now: int)
    requires h.Valid() && Legal(trace, |h.members|) && policy.cooldown.Some?
  {
    Away(h, policy, trace, m) && !Due(h, policy, trace, m, now)
  }

  lemma {:induction false} RestIsHistory(count: nat, policy: Policy, trace: seq<Action>, m: nat, now: int)
    requires count > 0 && Legal(trace, count) && m < count && policy.cooldown.Some?
    ensures var member := Play(Fresh(count), policy, trace).members[m];
            && (member.RestedFor(policy.cooldown.value, now) <==> Due(Fresh(count), policy, trace, m, now))
            && (!Eligible(member, policy.cooldown.value, now) <==> Resting(Fresh(count), policy, trace, m, now))
  {
    MarksAreHistory(count, policy, trace);
    assert MarkTold(Fresh(count), policy, trace, m, Play(Fresh(count), policy, trace).members[m]);
  }

  /**
   After any interleaving, a call at any moment goes to the most preferred member that the ring left at least one
   cooldown ago and that is preferred to the current one; it stays where it is when there is none.
   */
  lemma {:induction false} SelectsByHistory(count: nat, policy: Policy, trace: seq<Action>, now: int)
    requires count > 0 && Legal(trace, count)
    ensures var h0, h := Fresh(count), Play(Fresh(count), policy, trace);
            var (h', r) := Select(h, policy, now);
            && h'.current == r.index
            && (r.returned ==>
                  && policy.cooldown.Some? && r.index < h.current && Due(h0, policy, trace, r.index, now)
                  && forall i :: 0 <= i < r.index ==> !Due(h0, policy, trace, i, now))
            && (!r.returned ==>
                  && r.index == h.current
                  && (policy.cooldown.Some? ==> forall i :: 0 <= i < h.current ==> !Due(h0, policy, trace, i, now)))
  {
    if policy.cooldown.Some? {
      var h := Play(Fresh(count), policy, trace);
      forall i | 0 <= i < count
        ensures h.members[i].RestedFor(policy.cooldown.value, now) <==> Due(Fresh(count), policy, trace, i, now)
      {
        RestIsHistory(count, policy, trace, i, now);
      }
    }
  }

  /**
   After any interleaving, a rotation goes to the nearest member in ring order that is not resting, and to the very
   next one when all others are; without a cooldown it always goes to the very next one.
   */
  lemma {:induction false} RotatesByHistory(count: nat, policy: Policy, trace: seq<Action>, index: nat, now: int)
    requires count > 1 && Legal(trace, count) && index < count
    ensures var h0, h := Fresh(count), Play(Fresh(count), policy, trace);
            var steps := StepsAfter(h, index, policy, now);
            && 1 <= steps < count && NextAfter(h, index, policy, now) == (index + steps) % count
            && (policy.cooldown.None? ==> steps == 1)
            && (policy.cooldown.Some? ==>
                  && (forall s :: 1 <= s < steps ==> Resting(h0, policy, trace, Ahead(index, s, count), now))
                  && (!Resting(h0, policy, trace, NextAfter(h, index, policy, now), now)
                      || (steps == 1 && forall i :: 0 <= i < count && i != index ==>
                                          Resting(h0, policy, trace, i, now))))
  {
    var h := Play(Fresh(count), policy, trace);
    RotatesToNearest(h, index, policy, now);
    AheadIsModulo(index, StepsAfter(h, index, policy, now), count);
    if policy.cooldown.Some? {
      forall i | 0 <= i < count
        ensures !Eligible(h.members[i], policy.cooldown.value, now) <==> Resting(Fresh(count), policy, trace, i, now)
      {
        RestIsHistory(count, policy, trace, i, now);
      }
    }
  }

  // ---------------------------------------------------------------- drifting back

  /** Every rotation of the run happened at or before `t`. */
  ghost predicate RotationsBy(h: Health, policy: Policy, trace: seq<Action>, t: int)
    requires h.Valid() && Legal(trace, |h.members|)
    decreases |trace|
  {
    trace != [] ==>
      && RotationsBy(h, policy, trace[..|trace| - 1], t)
      && (LastMove(h, policy, trace).Rotated? ==> trace[|trace| - 1].now <= t)
  }

  /** A success of `m` was reported after the ring last rotated out of it. */
  ghost predicate AnsweredSinceLeft(h: Health, policy: Policy, trace: seq<Action>, m: nat)
    requires h.Valid() && Legal(trace, |h.members|)
    decreases |trace|
  {
    trace != [] &&
    var moved := LastMove(h, policy, trace);
    if moved.Rotated? && moved.rotation.from == m then false
    else trace[|trace| - 1] == Answered(m) || AnsweredSinceLeft(h, policy, trace[..|trace| - 1], m)
  }

  /** A rotation forward skips only members that carry a departure time. */
  lemma {:induction false} SkippedAreResting(h: Health, index: nat, policy: Policy, now: int, m: nat)
    requires h.Valid() && index < |h.members| && index < m < NextAfter(h, index, policy, now)
    ensures h.members[m].leftAt.Some?
  {
    var count := |h.members|;
    var steps := StepsAfter(h, index, policy, now);
    if policy.cooldown.Some? {
      assert !Eligible(h.members[Ahead(index, m - index, count)], policy.cooldown.value, now);
    }
  }

  ghost predicate LeftMarks(h: Health, policy: Policy, trace: seq<Action>, h': Health)
    requires h.Valid() && Legal(trace, |h.members|)
  {
    forall m :: 0 <= m < |h'.members| ==>
      && (h'.members[m].leftAt.Some? ==> !AnsweredSinceLeft(h, policy, trace, m))
      && (m < h'.current && h'.members[m].leftAt.None? ==> AnsweredSinceLeft(h, policy, trace, m))
  }

  /**
   Over every interleaving, a member preferred to the current one has a departure time unless a late success erased it.
   */
  lemma {:induction false} DepartureRecorded(count: nat, policy: Policy, trace: seq<Action>)
    requires count > 0 && Legal(trace, count)
    ensures LeftMarks(Fresh(count), policy, trace, Play(Fresh(count), policy, trace))
    decreases |trace|
  {
    if trace != [] {
      var h0, front, a := Fresh(count), trace[..|trace| - 1], trace[|trace| - 1];
      DepartureRecorded(count, policy, front);
      var h := Play(h0, policy, front);
      var (h', moved) := Step(h, policy, a);
      forall m | 0 <= m < count
        ensures h'.members[m].leftAt.Some? ==> !AnsweredSinceLeft(h0, policy, trace, m)
        ensures m < h'.current && h'.members[m].leftAt.None? ==> AnsweredSinceLeft(h0, policy, trace, m)
      {
        if moved.Rotated? && h.current < m < h'.current {
          SkippedAreResting(h, h.current, policy, a.now, m);
        }
      }
    }
  }

  ghost predicate LeftBy(h: Health, t: int) {
    forall m :: 0 <= m < |h.members| ==> h.members[m].leftAt.None? || h.members[m].leftAt.value <= t
  }

  lemma {:induction false} DeparturesBy(count: nat, policy: Policy, trace: seq<Action>, t: int)
    requires count > 0 && Legal(trace, count) && RotationsBy(Fresh(count), policy, trace, t)
    ensures LeftBy(Play(Fresh(count), policy, trace), t)
    decreases |trace|
  {
    if trace != [] {
      DeparturesBy(count, policy, trace[..|trace| - 1], t);
    }
  }

  lemma {:induction false} RestedUnlessAnswered(count: nat, policy: Policy, trace: seq<Action>, now: int)
    requires count > 0 && Legal(trace, count) && policy.cooldown.Some?
    requires RotationsBy(Fresh(count), policy, trace, now - policy.cooldown.value)
    ensures var h := Play(Fresh(count), policy, trace);
            forall i :: 0 <= i < h.current ==>
              (h.members[i].RestedFor(policy.cooldown.value, now) <==>
                !AnsweredSinceLeft(Fresh(count), policy, trace, i))
  {
    DepartureRecorded(count, policy, trace);
    DeparturesBy(count, policy, trace, now - policy.cooldown.value);
  }

  /**
   Over every interleaving, a call made at least one cooldown after every rotation goes to the most preferred
   member that has not answered since it was left, and to the current one when all of them have. In particular it
   goes to member 0 exactly when the ring is there already or member 0 has not answered since it was left.
   */
  lemma {:induction false} DriftsBack(count: nat, policy: Policy, trace: seq<Action>, now: int)
    requires count > 0 && Legal(trace, count) && policy.cooldown.Some?
    requires RotationsBy(Fresh(count), policy, trace, now - policy.cooldown.value)
    ensures var h := Play(Fresh(count), policy, trace);
            var m := Select(h, policy, now).1.index;
            && m <= h.current
            && (m < h.current ==> !AnsweredSinceLeft(Fresh(count), policy, trace, m))
            && (m == 0 <==> h.current == 0 || !AnsweredSinceLeft(Fresh(count), policy, trace, 0))
            && forall i :: 0 <= i < m ==> AnsweredSinceLeft(Fresh(count), policy, trace, i)
  {
    RestedUnlessAnswered(count, policy, trace, now);
  }

  /** Every outcome is reported on the member that is current at the time. */
  ghost predicate SingleCaller(h: Health, policy: Policy, trace: seq<Action>)
    requires h.Valid() && Legal(trace, |h.members|)
    decreases |trace|
  {
    trace != [] ==>
      var a := trace[|trace| - 1];
      && SingleCaller(h, policy, trace[..|trace| - 1])
      && (a.Choose? || a.index == Play(h, policy, trace[..|trace| - 1]).current)
  }

  ghost predicate PreferredLeft(h: Health) {
    forall m :: 0 <= m < h.current && m < |h.members| ==> h.members[m].leftAt.Some?
  }

  lemma {:induction false} RotationLeavesMarks(h: Health, policy: Policy, kind: FailureKind, now: int)
    requires h.Valid() && PreferredLeft(h)
    ensures PreferredLeft(Fail(h, h.current, kind, policy, now).0)
  {
    var (h', rotation) := Fail(h, h.current, kind, policy, now);
    if rotation.Some? {
      forall m | 0 <= m < h'.current ensures h'.members[m].leftAt.Some? {
        if h.current < m {
          SkippedAreResting(h, h.current, policy, now, m);
        }
      }
    }
  }

  /** Run by one caller at a time, every member preferred to the current one carries a departure time. */
  lemma {:induction false} SingleCallerLeavesMarks(count: nat, policy: Policy, trace: seq<Action>)
    requires count > 0 && Legal(trace, count) && SingleCaller(Fresh(count), policy, trace)
    ensures PreferredLeft(Play(Fresh(count), policy, trace))
    decreases |trace|
  {
    if trace != [] {
      SingleCallerLeavesMarks(count, policy, trace[..|trace| - 1]);
      var h, a := Play(Fresh(count), policy, trace[..|trace| - 1]), trace[|trace| - 1];
      if a.Failure? {
        RotationLeavesMarks(h, policy, a.kind, a.now);
      }
    }
  }

  /** With a cooldown and one caller at a time, a call made one cooldown after the last rotation goes to member 0. */
  lemma {:induction false} SingleCallerDriftsHome(count: nat, policy: Policy, trace: seq<Action>, now: int)
    requires count > 0 && Legal(trace, count) && SingleCaller(Fresh(count), policy, trace)
    requires policy.cooldown.Some? && RotationsBy(Fresh(count), policy, trace, now - policy.cooldown.value)
    ensures Select(Play(Fresh(count), policy, trace), policy, now).1.index == 0
  {
    SingleCallerLeavesMarks(count, policy, trace);
    DeparturesBy(count, policy, trace, now - policy.cooldown.value);
    var h := Play(Fresh(count), policy, trace);
    if h.current > 0 {
      assert h.members[0].RestedFor(policy.cooldown.value, now);
    }
  }

  /** The single-caller hypothesis is needed: a late success of the member just left keeps the ring away from it. */
  lemma {:induction false} LateSuccessKeepsRingAway(now: int)
    ensures var policy := Policy(1, Some(60));
            var trace := [Failure(0, Counted, 0), Answered(0)];
            && Legal(trace, 2)
            && Play(Fresh(2), policy, trace).current == 1
            && Select(Play(Fresh(2), policy, trace), policy, now).1 == Selection(1, false)
  {
    var policy := Policy(1, Some(60));
    var h := Fresh(2);
    var t := [Failure(0, Counted, 0), Answered(0)];
    assert t[..1] == [t[0]] && t[..1][..0] == [];
    assert FirstEligible(h, 0, 60, 0, 1) == Some(1);
    var (h1, _) := Step(h, policy, t[0]);
    assert h1.current == 1;
    assert Play(h, policy, t[..1]) == h1;
    assert Play(h, policy, t) == Succeed(h1, 0);
    assert FirstRested(Succeed(h1, 0), 60, now, 0) == None;
  }
}
