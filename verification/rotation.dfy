/** One call through the ring: try the selected member, and move on when its failure rotated the ring. */
module GatewayRings {
  import opened Base
  import opened RingHealth

  /** How an attempt failed, and whose fault that was. */
  datatype MemberFailure<E> = MemberFailure(error: E, kind: FailureKind)

  function Verdict<T, E>(r: Result<T, MemberFailure<E>>): Result<T, E> {
    match r
    case Ok(value) => Ok(value)
    case Err(failure) => Err(failure.error)
  }

  lemma {:induction false} AheadTwice(start: nat, k: nat, count: nat)
    requires start < count && k + 1 <= count
    ensures Ahead(Ahead(start, k, count), 1, count) == Ahead(start, k + 1, count)
  {
  }

  lemma {:induction false} AheadInjective(start: nat, j: nat, k: nat, count: nat)
    requires start < count && j < k < count
    ensures Ahead(start, j, count) != Ahead(start, k, count)
  {
  }

  /** The members a call tried are consecutive in ring order, within one turn. */
  ghost predicate Consecutive(tried: seq<nat>, count: nat) {
    && |tried| <= count
    && (tried != [] ==> tried[0] < count)
    && forall k :: 0 <= k < |tried| ==> tried[k] == Ahead(tried[0], k, count)
  }

  ghost predicate Distinct(tried: seq<nat>) {
    forall j, k :: 0 <= j < k < |tried| ==> tried[j] != tried[k]
  }

  lemma {:induction false} ConsecutiveIsDistinct(tried: seq<nat>, count: nat)
    requires Consecutive(tried, count)
    ensures Distinct(tried)
  {
    forall j, k | 0 <= j < k < |tried| ensures tried[j] != tried[k] {
      AheadInjective(tried[0], j, k, count);
    }
  }

  /** The first `n` attempts failed, each by the member's own fault. */
  ghost predicate Exhausted<T, E>(op: (nat, nat) -> Result<T, MemberFailure<E>>, tried: seq<nat>, n: nat) {
    n <= |tried| && forall k :: 0 <= k < n ==> op(k, tried[k]).Err? && op(k, tried[k]).error.kind != NotTheMembersFault
  }

  lemma {:induction false} ExhaustedOneMore<T, E>(op: (nat, nat) -> Result<T, MemberFailure<E>>, tried: seq<nat>,
                                                  next: nat)
    requires tried != [] && Exhausted(op, tried, |tried| - 1)
    requires var answer := op(|tried| - 1, tried[|tried| - 1]); answer.Err? && answer.error.kind != NotTheMembersFault
    ensures Exhausted(op, tried + [next], |tried|)
  {
  }

  ghost predicate InRing(tried: seq<nat>, count: nat) {
    |tried| <= count && forall k :: 0 <= k < |tried| ==> tried[k] < count
  }

  /** A failure moves the ring only off the member that failed, to the next one that may be taken. */
  lemma {:induction false} FailureMoves(h: Health, policy: Policy, index: nat, kind: FailureKind, now: int)
    requires h.Valid() && index < |h.members|
    ensures var moved := Step(h, policy, Failure(index, kind, now)).1;
            moved != Stayed ==>
              && moved.Rotated? && h.current == index
              && moved.rotation.from == index && moved.rotation.to == NextAfter(h, index, policy, now)
  {
  }

  /** Nobody has to wait before being taken again, or there is nobody else to take. */
  predicate GoesInOrder(policy: Policy, count: nat) {
    count <= 2 || policy.cooldown.None? || policy.cooldown == Some(0)
  }

  /** Such a ring always rotates to the very next member. */
  lemma {:induction false} NextInOrder(h: Health, policy: Policy, index: nat, now: int)
    requires h.Valid() && index < |h.members| && GoesInOrder(policy, |h.members|)
    ensures NextAfter(h, index, policy, now) == Ahead(index, 1, |h.members|)
  {
    if policy.cooldown == Some(0) && |h.members| > 1 {
      assert Eligible(h.members[Ahead(index, 1, |h.members|)], 0, now);
    }
  }

  /** A call under way: every attempt but the last failed, by the member's own fault. */
  ghost predicate Trying<T, E>(op: (nat, nat) -> Result<T, MemberFailure<E>>, count: nat, tried: seq<nat>) {
    tried != [] && InRing(tried, count) && Exhausted(op, tried, |tried| - 1)
  }

  lemma {:induction false} TryingFirst<T, E>(op: (nat, nat) -> Result<T, MemberFailure<E>>, count: nat, index: nat)
    requires index < count
    ensures Trying(op, count, [index])
  {
  }

  lemma {:induction false} TryingOneMore<T, E>(op: (nat, nat) -> Result<T, MemberFailure<E>>, count: nat,
                                               tried: seq<nat>, next: nat)
    requires Trying(op, count, tried) && |tried| < count && next < count
    requires var answer := op(|tried| - 1, tried[|tried| - 1]); answer.Err? && answer.error.kind != NotTheMembersFault
    ensures Trying(op, count, tried + [next])
  {
    ExhaustedOneMore(op, tried, next);
  }

  // ---------------------------------------------------------------- the attempts of one call

  /** After the transitions `seen`, the call goes to `to`: it was selected, or the failure of `from` rotated to it. */
  ghost predicate Leads(start: Health, policy: Policy, seen: seq<Action>, from: Option<nat>, to: nat) {
    && start.Valid() && Legal(seen, |start.members|) && seen != []
    && match from
       case None => seen[|seen| - 1].Choose? && Play(start, policy, seen).current == to
       case Some(m) =>
         && seen[|seen| - 1].Failure? && seen[|seen| - 1].index == m
         && LastMove(start, policy, seen).Rotated? && LastMove(start, policy, seen).rotation.to == to
  }

  function LastOf(tried: seq<nat>): Option<nat> {
    if tried == [] then None else Some(tried[|tried| - 1])
  }

  function PreviousOf(tried: seq<nat>, k: nat): Option<nat>
    requires k < |tried|
  {
    if k == 0 then None else Some(tried[k - 1])
  }

  /** The members a call tried, read off the interleaving; `seen[k]` is the part of it that led to attempt `k`. */
  ghost predicate Attempts(start: Health, policy: Policy, tried: seq<nat>, seen: seq<seq<Action>>) {
    |seen| == |tried| && forall k :: 0 <= k < |tried| ==> AttemptAt(start, policy, tried, seen, k)
  }

  ghost predicate AttemptAt(start: Health, policy: Policy, tried: seq<nat>, seen: seq<seq<Action>>, k: nat)
    requires |seen| == |tried| && k < |tried|
  {
    Leads(start, policy, seen[k], PreviousOf(tried, k), tried[k])
  }

  /** The parts follow one another in `trace`. */
  ghost predicate Nested(seen: seq<seq<Action>>, trace: seq<Action>) {
    && (forall k :: 0 <= k < |seen| ==> seen[k] <= trace)
    && (forall j, k :: 0 <= j < k < |seen| ==> |seen[j]| < |seen[k]|)
  }

  lemma {:induction false} AttemptsOneMore(start: Health, policy: Policy, tried: seq<nat>, seen: seq<seq<Action>>,
                                           last: seq<Action>, to: nat)
    requires Attempts(start, policy, tried, seen) && Leads(start, policy, last, LastOf(tried), to)
    ensures Attempts(start, policy, tried + [to], seen + [last])
  {
    var tried', seen' := tried + [to], seen + [last];
    forall k | 0 <= k < |tried'| ensures AttemptAt(start, policy, tried', seen', k) {
      if k < |tried| {
        assert AttemptAt(start, policy, tried, seen, k) && PreviousOf(tried', k) == PreviousOf(tried, k);
      }
    }
  }

  /** `seen` ends in the failure of `from`, then current, and `to` is what ring order gives after it at that moment. */
  ghost predicate Follows(start: Health, policy: Policy, seen: seq<Action>, from: nat, to: nat) {
    && start.Valid() && seen != [] && Legal(seen[..|seen| - 1], |start.members|) && seen[|seen| - 1].Failure?
    && var h := Play(start, policy, seen[..|seen| - 1]);
       h.current == from && to == NextAfter(h, from, policy, seen[|seen| - 1].now)
  }

  lemma {:induction false} LeadsFollow(start: Health, policy: Policy, seen: seq<Action>, from: nat, to: nat)
    requires Leads(start, policy, seen, Some(from), to)
    ensures Follows(start, policy, seen, from, to)
    ensures |start.members| > 1 ==> from != to
  {
    var a, h := seen[|seen| - 1], Play(start, policy, seen[..|seen| - 1]);
    FailureMoves(h, policy, a.index, a.kind, a.now);
    if |h.members| > 1 {
      RotatesToNearest(h, a.index, policy, a.now);
    }
  }

  /**
   Each next attempt is at the member ring order gives after the failed one at that moment, which in a ring of two
   or more is another member. `DistinctExactlyWhen` says when that keeps a call from coming back.
   */
  lemma {:induction false} NextAttempt(start: Health, policy: Policy, tried: seq<nat>, seen: seq<seq<Action>>, k: nat)
    requires Attempts(start, policy, tried, seen) && 0 < k < |tried|
    ensures Follows(start, policy, seen[k], tried[k - 1], tried[k])
    ensures |start.members| > 1 ==> tried[k] != tried[k - 1]
  {
    assert AttemptAt(start, policy, tried, seen, k);
    LeadsFollow(start, policy, seen[k], tried[k - 1], tried[k]);
  }

  lemma {:induction false} PlayOneMore(h: Health, policy: Policy, trace: seq<Action>, a: Action)
    requires h.Valid() && Legal(trace + [a], |h.members|)
    ensures Legal(trace, |h.members|)
    ensures Play(h, policy, trace + [a]) == Step(Play(h, policy, trace), policy, a).0
    ensures LastMove(h, policy, trace + [a]) == Step(Play(h, policy, trace), policy, a).1
  {
    assert (trace + [a])[..|trace|] == trace;
    assert forall k :: 0 <= k < |trace| ==> trace[k] == (trace + [a])[k];
  }

  // ---------------------------------------------------------------- when a call comes back

  /** In a ring that goes in order, one call's attempts are at consecutive members, whatever other callers do. */
  lemma {:induction false} AttemptsInOrder(start: Health, policy: Policy, tried: seq<nat>, seen: seq<seq<Action>>)
    requires Attempts(start, policy, tried, seen) && |tried| <= |start.members|
    requires GoesInOrder(policy, |start.members|)
    ensures Consecutive(tried, |start.members|) && Distinct(tried)
  {
    if tried != [] {
      assert AttemptAt(start, policy, tried, seen, 0);
      forall k | 0 <= k < |tried| ensures tried[k] == Ahead(tried[0], k, |start.members|) {
        AttemptInOrder(start, policy, tried, seen, k);
      }
    }
    ConsecutiveIsDistinct(tried, |start.members|);
  }

  lemma {:induction false} OrderIfAny(start: Health, policy: Policy, tried: seq<nat>, seen: seq<seq<Action>>)
    requires Attempts(start, policy, tried, seen) && |tried| <= |start.members|
    ensures GoesInOrder(policy, |start.members|) ==> Consecutive(tried, |start.members|) && Distinct(tried)
  {
    if GoesInOrder(policy, |start.members|) {
      AttemptsInOrder(start, policy, tried, seen);
    }
  }

  lemma {:induction false} AttemptInOrder(start: Health, policy: Policy, tried: seq<nat>, seen: seq<seq<Action>>,
                                          k: nat)
    requires Attempts(start, policy, tried, seen) && k < |tried| <= |start.members|
    requires GoesInOrder(policy, |start.members|) && tried[0] < |start.members|
    ensures tried[k] == Ahead(tried[0], k, |start.members|)
  {
    if k > 0 {
      AttemptInOrder(start, policy, tried, seen, k - 1);
      assert Follows(start, policy, seen[k], tried[k - 1], tried[k]) by { NextAttempt(start, policy, tried, seen, k); }
      FollowsInOrder(start, policy, seen[k], tried[k - 1], tried[k]);
      AheadTwice(tried[0], k - 1, |start.members|);
    }
  }

  lemma {:induction false} FollowsInOrder(start: Health, policy: Policy, seen: seq<Action>, from: nat, to: nat)
    requires Follows(start, policy, seen, from, to) && GoesInOrder(policy, |start.members|)
    ensures from < |start.members| && to == Ahead(from, 1, |start.members|)
  {
    var h := Play(start, policy, seen[..|seen| - 1]);
    NextInOrder(h, policy, from, seen[|seen| - 1].now);
  }

  /** A due failure at `now`, when `step` places on is the first member that may be taken. */
  lemma {:induction false} FailsOver(h: Health, policy: Policy, kind: FailureKind, now: int, step: nat)
    requires h.Valid() && policy.cooldown.Some? && kind != NotTheMembersFault
    requires kind == Immediate || h.members[h.current].probation
    requires 1 <= step < |h.members|
    requires Eligible(h.members[Ahead(h.current, step, |h.members|)], policy.cooldown.value, now)
    requires forall k :: 1 <= k < step ==>
               !Eligible(h.members[Ahead(h.current, k, |h.members|)], policy.cooldown.value, now)
    ensures var to := Ahead(h.current, step, |h.members|);
            var (h', moved) := Step(h, policy, Failure(h.current, kind, now));
            && moved.Rotated? && moved.rotation.to == to
            && h' == h.WithMember(h.current, LeftAt(now)).WithCurrent(to)
  {
    var first := FirstEligible(h, h.current, policy.cooldown.value, now, 1);
    assert first == Some(step);
  }

  ghost function LeftAt(now: int): Member { Member(0, false, Some(now)) }

  /** The current member's due failure moves on to `to`, `step` places ahead; nobody else is touched. */
  lemma {:induction false} PlayLeaves(start: Health, policy: Policy, seen: seq<Action>, h: Health, kind: FailureKind,
                                      now: int, step: nat, to: nat)
    returns (seen': seq<Action>, h': Health)
    requires start.Valid() && Legal(seen, |start.members|) && h == Play(start, policy, seen)
    requires policy.cooldown.Some? && (kind == Immediate || (kind == Counted && h.members[h.current].probation))
    requires 1 <= step < |h.members| && to == Ahead(h.current, step, |h.members|)
    requires Eligible(h.members[to], policy.cooldown.value, now)
    requires forall k :: 1 <= k < step ==>
               !Eligible(h.members[Ahead(h.current, k, |h.members|)], policy.cooldown.value, now)
    ensures seen < seen' && Leads(start, policy, seen', Some(h.current), to) && h' == Play(start, policy, seen')
    ensures h'.current == to && |h'.members| == |h.members| && h'.members[h.current] == LeftAt(now)
    ensures h'.members[to] == Member(0, h.members[to].leftAt.Some?, None)
    ensures forall i :: 0 <= i < |h.members| && i != to && i != h.current ==> h'.members[i] == h.members[i]
  {
    var a := Failure(h.current, kind, now);
    seen' := seen + [a];
    FailsOver(h, policy, kind, now, step);
    PlayOneMore(start, policy, seen, a);
    h' := Step(h, policy, a).0;
  }

  /** When the first lap left member `i`: the first two early, the others late. */
  function LapTime(i: nat, s: int, t: int): int { if i < 2 then s else t }

  /** The first lap has come as far as member `k`. */
  ghost predicate Lap(h: Health, k: nat, s: int, t: int) {
    && h.current == k < |h.members|
    && (forall i :: 0 <= i < k ==> h.members[i] == LeftAt(LapTime(i, s, t)))
    && (forall i :: k <= i < |h.members| ==> h.members[i] == Member(0, false, None))
  }

  /** One failure each takes a new ring as far as any member. */
  lemma {:induction false} FirstLap(h0: Health, policy: Policy, s: int, t: int, k: nat) returns (past: seq<Action>)
    requires policy.cooldown.Some? && h0.Valid() && Lap(h0, 0, s, t) && k < |h0.members|
    ensures Legal(past, |h0.members|) && Lap(Play(h0, policy, past), k, s, t)
    decreases k
  {
    if k == 0 {
      past := [];
    } else {
      past := FirstLap(h0, policy, s, t, k - 1);
      var h, h' := Play(h0, policy, past), h0;
      past, h' := PlayLeaves(h0, policy, past, h, Immediate, LapTime(k - 1, s, t), 1, k);
    }
  }

  /** The ring is back at member 0, on probation; member 1 has rested, and nobody else has. */
  ghost predicate Round(h: Health, s: int, t: int) {
    && h.current == 0 && |h.members| >= 3 && h.members[0] == Member(0, true, None)
    && (forall i :: 1 <= i < |h.members| ==> h.members[i] == LeftAt(LapTime(i, s, t)))
  }

  lemma {:induction false} OnceRound(h0: Health, policy: Policy, s: int, t: int) returns (past: seq<Action>)
    requires policy.cooldown.Some? && 0 < policy.cooldown.value <= t - s
    requires h0.Valid() && Lap(h0, 0, s, t) && |h0.members| >= 3
    ensures Legal(past, |h0.members|) && Round(Play(h0, policy, past), s, t)
  {
    var n := |h0.members|;
    past := FirstLap(h0, policy, s, t, n - 1);
    var h, h' := Play(h0, policy, past), h0;
    past, h' := PlayLeaves(h0, policy, past, h, Immediate, t, 1, 0);
  }

  lemma {:induction false} StartsHere(start: Health, policy: Policy, t: int, before: seq<Action>)
    returns (call: seq<Action>)
    requires start.Valid() && start.current == 0
    requires Legal(before, |start.members|) && Play(start, policy, before) == start
    ensures Leads(start, policy, call, None, 0) && Play(start, policy, call) == start
  {
    call := before + [Choose(t)];
    PlayOneMore(start, policy, before, Choose(t));
  }

  lemma {:induction false} AnswersLate(start: Health, policy: Policy, call: seq<Action>) returns (call': seq<Action>)
    requires start.Valid() && Legal(call, |start.members|)
    ensures call < call' && Legal(call', |start.members|)
    ensures Play(start, policy, call') == Succeed(Play(start, policy, call), 0)
  {
    call' := call + [Answered(0)];
    PlayOneMore(start, policy, call, Answered(0));
  }

  /** Member 0 fails; it answers late; and the failure of member 1 leads past everyone else back to it. */
  lemma {:induction false} RoundAgain(start: Health, policy: Policy, s: int, t: int, first: seq<Action>)
    returns (second: seq<Action>, third: seq<Action>)
    requires policy.cooldown.Some? && 0 < policy.cooldown.value <= t - s && Round(start, s, t)
    requires Legal(first, |start.members|) && Play(start, policy, first) == start
    ensures first < second < third
    ensures Leads(start, policy, second, Some(0), 1) && Leads(start, policy, third, Some(1), 0)
  {
    var n, h2, h4 := |start.members|, start, start;
    second, h2 := PlayLeaves(start, policy, first, start, Counted, t, 1, 1);
    var answered := AnswersLate(start, policy, second);
    var h3 := Play(start, policy, answered);
    forall k | 1 <= k < n - 1 ensures !Eligible(h3.members[Ahead(h3.current, k, n)], policy.cooldown.value, t) {
      assert Ahead(1, k, n) == k + 1 && h3.members[k + 1] == LeftAt(t);
    }
    third, h4 := PlayLeaves(start, policy, answered, h3, Counted, t, n - 1, 0);
  }

  lemma {:induction false} ThreeAttempts(start: Health, policy: Policy, i: nat, j: nat, k: nat,
                                         a: seq<Action>, b: seq<Action>, c: seq<Action>)
    requires Leads(start, policy, a, None, i) && Leads(start, policy, b, Some(i), j)
    requires Leads(start, policy, c, Some(j), k)
    ensures Attempts(start, policy, [i, j, k], [a, b, c])
  {
    assert Attempts(start, policy, [], []);
    assert Attempts(start, policy, [i], [a]) by {
      assert [] + [i] == [i] && [] + [a] == [a];
      AttemptsOneMore(start, policy, [], [], a, i);
    }
    assert Attempts(start, policy, [i, j], [a, b]) by {
      assert [i] + [j] == [i, j] && [a] + [b] == [a, b];
      AttemptsOneMore(start, policy, [i], [a], b, j);
    }
    assert [i, j] + [k] == [i, j, k] && [a, b] + [c] == [a, b, c];
    AttemptsOneMore(start, policy, [i, j], [a, b], c, k);
  }

  /** One call through a ring of `count`, made after the transitions `past` and interleaved as in `trace`. */
  ghost predicate Calls(policy: Policy, count: nat, past: seq<Action>, trace: seq<Action>, tried: seq<nat>,
                        seen: seq<seq<Action>>)
    requires count > 0
  {
    && Legal(past, count) && |tried| <= count && Nested(seen, trace)
    && Attempts(Play(Fresh(count), policy, past), policy, tried, seen)
  }

  /**
   In a ring of three or more with a cooldown, a call may come back to a member it has tried. Once the ring has been
   round, the call's failure of member 0 moves it to member 1. A late success of member 0 then erases its departure,
   so the failure of member 1 leads past all the resting members back to member 0.
   */
  lemma {:induction false} CooldownRevisits(policy: Policy, count: nat)
    returns (past: seq<Action>, trace: seq<Action>, seen: seq<seq<Action>>)
    requires count > 0 && !GoesInOrder(policy, count)
    ensures Calls(policy, count, past, trace, [0, 1, 0], seen)
  {
    var s, t := 0, policy.cooldown.value;
    past := OnceRound(Fresh(count), policy, s, t);
    var start := Play(Fresh(count), policy, past);
    var first := StartsHere(start, policy, t, []);
    var second;
    second, trace := RoundAgain(start, policy, s, t, first);
    seen := [first, second, trace];
    ThreeAttempts(start, policy, 0, 1, 0, first, second, trace);
  }

  /**
   No call ever comes back to a member it has tried, under any interleaving and whatever happened before, if and only
   if the ring has at most two members, no cooldown, or a cooldown of zero.
   */
  lemma {:induction false} DistinctExactlyWhen(policy: Policy, count: nat)
    requires count > 0
    ensures (forall past, trace, tried, seen :: Calls(policy, count, past, trace, tried, seen) ==> Distinct(tried))
            <==> GoesInOrder(policy, count)
  {
    if GoesInOrder(policy, count) {
      forall past, trace, tried, seen | Calls(policy, count, past, trace, tried, seen) ensures Distinct(tried) {
        AttemptsInOrder(Play(Fresh(count), policy, past), policy, tried, seen);
      }
    } else {
      var past, trace, seen := CooldownRevisits(policy, count);
      assert [0, 1, 0][0] == [0, 1, 0][2];
    }
  }

  class GatewayRing {
    const policy: Policy
    const count: nat
    var health: Health

    ghost predicate Valid()
      reads this
    {
      health.Valid() && |health.members| == count
    }

    constructor (count: nat, policy: Policy)
      requires count > 0
      ensures Valid() && health == Fresh(count) && this.policy == policy && this.count == count
    {
      this.policy := policy;
      this.count := count;
      health := Fresh(count);
    }

    /** Swaps the shared health under the lock: other callers' transitions, then this caller's. */
    method Transition(others: seq<Action>, own: Action, ghost start: Health, ghost before: seq<Action>)
      returns (moved: Moved, ghost trace: seq<Action>)
      requires Valid() && Legal(others, count) && (own.Choose? || own.index < count)
      requires start.Valid() && |start.members| == count && Legal(before, count) &&
            health == Play(start, policy, before)
      modifies this`health
      ensures Valid() && Legal(trace, count) && trace == before + others + [own]
      ensures health == Play(start, policy, trace) && moved == LastMove(start, policy, trace)
    {
      PlayConcat(start, policy, before, others);
      trace := before + others + [own];
      PlayOneMore(start, policy, before + others, own);
      health := Play(health, policy, others);
      var (next, m) := Step(health, policy, own);
      health := next;
      moved := m;
    }

    /** Reports one attempt's answer; the member to go on with, if the failure rotated the ring. */
    method Report<T, E>(answer: Result<T, MemberFailure<E>>, index: nat, now: int, others: seq<Action>,
                        ghost start: Health, ghost before: seq<Action>,
                        ghost tried: seq<nat>, ghost seen: seq<seq<Action>>)
      returns (next: Option<nat>, ghost trace: seq<Action>)
      requires Valid() && Legal(others, count) && index < count
      requires start.Valid() && |start.members| == count && Legal(before, count) &&
            health == Play(start, policy, before)
      requires Attempts(start, policy, tried, seen) && LastOf(tried) == Some(index)
      modifies this`health
      ensures Valid() && Legal(trace, count) && health == Play(start, policy, trace)
      ensures before <= trace && (next.Some? ==> before < trace)
      ensures next.Some? ==> answer.Err? && answer.error.kind != NotTheMembersFault && next.value < count
      ensures next.Some? ==> Attempts(start, policy, tried + [next.value], seen + [trace])
      ensures next.None? && answer.Err? ==>
                answer.error.kind == NotTheMembersFault || (trace != [] && LastMove(start, policy, trace) == Stayed)
    {
      var moved;
      match answer {
        case Ok(_) =>
          moved, trace := Transition(others, Answered(index), start, before);
          return None, trace;
        case Err(failure) =>
          if failure.kind == NotTheMembersFault {
            return None, before;
          }
          moved, trace := Transition(others, Failure(index, failure.kind, now), start, before);
          if moved == Stayed {
            return None, trace;
          }
          ghost var h := Play(start, policy, trace[..|trace| - 1]);
          FailureMoves(h, policy, index, failure.kind, now);
          AttemptsOneMore(start, policy, tried, seen, trace, moved.rotation.to);
          return Some(moved.rotation.to), trace;
      }
    }

    /**
     Runs `op` against the selected member, moving on while each failure rotates the ring.

     `op(k, m)` is the answer of member `m` on attempt `k`, `clock(k)` the time read before transition `k`, and
     `others(k)` whatever transitions other callers made since this call's previous one. `trace` records the
     whole interleaving.
     */
    method WithRotation<T, E>(op: (nat, nat) -> Result<T, MemberFailure<E>>, clock: nat -> int,
                              others: nat -> seq<Action>)
      returns (result: Result<T, E>, tried: seq<nat>, ghost trace: seq<Action>, ghost seen: seq<seq<Action>>)
      requires Valid() && count > 0
      requires forall k :: Legal(others(k), count)
      modifies this`health
      ensures Valid() && Legal(trace, count) && health == Play(old(health), policy, trace)
      ensures |tried| >= 1 && InRing(tried, count)
      ensures Attempts(old(health), policy, tried, seen) && Nested(seen, trace)
      // the caller gets the last attempted member's own answer
      ensures result == Verdict(op(|tried| - 1, tried[|tried| - 1]))
      ensures Exhausted(op, tried, |tried| - 1)
      // short of a full turn, an error is final only if it is not the member's fault or rotated nothing
      ensures result.Err? && |tried| < count ==>
                || op(|tried| - 1, tried[|tried| - 1]).error.kind == NotTheMembersFault
                || (trace != [] && LastMove(old(health), policy, trace) == Stayed)
      ensures GoesInOrder(policy, count) ==> Consecutive(tried, count) && Distinct(tried)
    {
      ghost var start := health;
      var index;
      index, trace := FirstAttempt(clock(0), others(0));
      tried, seen := [index], [trace];
      TryingFirst(op, count, index);
      NestedLater([], [], trace);
      assert [] + [trace] == [trace];
      while true
        invariant Valid() && Legal(trace, count) && health == Play(start, policy, trace)
        invariant Trying(op, count, tried)
        invariant Attempts(start, policy, tried, seen) && Nested(seen, trace)
        decreases count - |tried|
      {
        var k := |tried| - 1;
        index := tried[k];
        var answer := op(k, index);
        var next;
        ghost var before := trace;
        next, trace := Report(answer, index, clock(k + 1), others(k + 1), start, before, tried, seen);
        NestedLater(seen, before, trace);
        if next.None? || |tried| >= count {
          OrderIfAny(start, policy, tried, seen);
          return Verdict(answer), tried, trace, seen;
        }
        TryingOneMore(op, count, tried, next.value);
        tried, seen := tried + [next.value], seen + [trace];
      }
    }

    /** Selects the member to try first. */
    method FirstAttempt(now: int, others: seq<Action>) returns (index: nat, ghost trace: seq<Action>)
      requires Valid() && Legal(others, count)
      modifies this`health
      ensures Valid() && Legal(trace, count) && health == Play(old(health), policy, trace) && index < count
      ensures trace != [] && Attempts(old(health), policy, [index], [trace])
    {
      ghost var start := health;
      var moved;
      moved, trace := Transition(others, Choose(now), start, []);
      index := health.current;
      AttemptsOneMore(start, policy, [], [], trace, index);
      assert [] + [index] == [index] && [] + [trace] == [trace];
    }
  }

  lemma {:induction false} NestedLater(seen: seq<seq<Action>>, before: seq<Action>, trace: seq<Action>)
    requires Nested(seen, before) && before <= trace
    ensures Nested(seen, trace)
    ensures before < trace ==> Nested(seen + [trace], trace)
  {
    forall k | 0 <= k < |seen| ensures seen[k] <= trace {
      assert seen[k] <= before;
    }
  }
}
