/**
 The entries that continue from one entry of a transcript, and the order they are
 listed in: not the order of their creation, but the one `ChildrenOrder` gives.
 */
module TranscriptChildren {
  import opened Base
  import opened Entries
  import opened Transcript

  function ChildrenIn(s: seq<Item>, id: EntryId): (r: seq<Item>)
    decreases |s|
  {
    if s == [] then [] else ChildrenIn(s[..|s| - 1], id) + (if Last(s).parent == Some(id) then [Last(s)] else [])
  }

  /** Every entry whose parent is `id`: the active path is searched first, then the archive. */
  function Children(s: State, id: EntryId): (r: seq<Item>) {
    ChildrenIn(s.All(), id)
  }

  lemma {:induction false} ChildrenAppend(s: seq<Item>, item: Item, id: EntryId)
    ensures ChildrenIn(s + [item], id) == ChildrenIn(s, id) + (if item.parent == Some(id) then [item] else [])
  {
    assert (s + [item])[..|s|] == s;
  }

  lemma {:induction false} ChildrenConcat(a: seq<Item>, b: seq<Item>, id: EntryId)
    ensures ChildrenIn(a + b, id) == ChildrenIn(a, id) + ChildrenIn(b, id)
    decreases |b|
  {
    if b == [] {
      assert a + b == a && ChildrenIn(a, id) + [] == ChildrenIn(a, id);
    } else {
      var front, item := b[..|b| - 1], Last(b);
      var last := if item.parent == Some(id) then [item] else [];
      assert ChildrenIn(a + front, id) == ChildrenIn(a, id) + ChildrenIn(front, id) by { ChildrenConcat(a, front, id); }
      assert ChildrenIn(a + b, id) == ChildrenIn(a + front, id) + last by {
        assert b == front + [item];
        Regroup(a, front, [item]);
        ChildrenAppend(a + front, item, id);
      }
      Regroup(ChildrenIn(a, id), ChildrenIn(front, id), last);
    }
  }

  /** An entry is listed as often as it is there, if its parent is `id`, and otherwise not at all. */
  lemma {:induction false} ChildCount(s: seq<Item>, id: EntryId, e: Item)
    ensures multiset(ChildrenIn(s, id))[e] == if e.parent == Some(id) then multiset(s)[e] else 0
    decreases |s|
  {
    if s != [] {
      var front, item := s[..|s| - 1], Last(s);
      ChildCount(front, id, e);
      assert multiset(s) == multiset(front) + multiset{item} by { assert s == front + [item]; }
    }
  }

  lemma {:induction false} ChildIn(s: seq<Item>, id: EntryId, e: Item)
    ensures e in ChildrenIn(s, id) <==> e in s && e.parent == Some(id)
  {
    ChildCount(s, id, e);
    assert e in ChildrenIn(s, id) <==> e in multiset(ChildrenIn(s, id));
    assert e in s <==> e in multiset(s);
  }

  // ---------------------------------------------------------------- leaving the active path

  /** The step of the history by which `e` last left the active path; zero if it never did. */
  ghost function Left(states: seq<State>, e: Item): nat
    decreases |states|
  {
    if |states| < 2 then 0
    else
      var n := |states| - 1;
      if e in states[n - 1].items && e !in states[n].items then n else Left(states[..n], e)
  }

  lemma {:induction false} LeftWhen(states: seq<State>, e: Item)
    requires Left(states, e) > 0
    ensures var k := Left(states, e); k < |states| && e in states[k - 1].items && e !in states[k].items
    decreases |states|
  {
    var n := |states| - 1;
    if !(e in states[n - 1].items && e !in states[n].items) {
      LeftWhen(states[..n], e);
    }
  }

  lemma {:induction false} LeftBefore(states: seq<State>, e: Item)
    requires states != []
    ensures Left(states, e) < |states|
  {
    if Left(states, e) > 0 {
      LeftWhen(states, e);
    }
  }

  ghost predicate Sorted(states: seq<State>, s: seq<Item>) {
    forall i, j :: 0 <= i < j < |s| ==> Left(states, s[i]) <= Left(states, s[j])
  }

  lemma {:induction false} RemoveSorted(states: seq<State>, s: seq<Item>, k: nat)
    requires k < |s| && Sorted(states, s)
    ensures Sorted(states, RemoveAt(s, k)) && forall e :: e in RemoveAt(s, k) ==> e in s
  {
    var t := RemoveAt(s, k);
    forall i, j | 0 <= i < j < |t| ensures Left(states, t[i]) <= Left(states, t[j]) {
      RemovedIndex(s, k, i);
      RemovedIndex(s, k, j);
    }
  }

  ghost predicate Part(s: State, rest: State) {
    (forall e :: e in rest.items ==> e in s.items) && (forall e :: e in rest.archive ==> e in s.archive)
  }

  lemma {:induction false} TakeSorted(states: seq<State>, s: State, id: EntryId)
    requires Take(s, id).Some? && Sorted(states, s.archive)
    ensures Sorted(states, Take(s, id).value.1.archive) && Part(s, Take(s, id).value.1)
  {
    if Find(s.items, id).None? {
      RemoveSorted(states, s.archive, Find(s.archive, id).value);
    }
  }

  lemma {:induction false} TakeAllSorted(states: seq<State>, s: State, ids: seq<EntryId>)
    requires TakeAll(s, ids).Some? && Sorted(states, s.archive)
    ensures Sorted(states, TakeAll(s, ids).value.1.archive) && Part(s, TakeAll(s, ids).value.1)
    decreases |ids|
  {
    if ids != [] {
      var front := ids[..|ids| - 1];
      TakeAllSorted(states, s, front);
      TakeSorted(states, TakeAll(s, front).value.1, Last(ids));
    }
  }

  /** Nothing is on the active path and in the archive at once, or twice in either. */
  lemma {:induction false} NotTwice(a: seq<Item>, b: seq<Item>, e: Item)
    requires multiset(a + b)[e] == 1 && e in a
    ensures e !in b
  {
    assert multiset(a + b) == multiset(a) + multiset(b);
    assert e in b ==> multiset(b)[e] >= 1;
  }

  /** The new archive is what is `kept` of the old one, in order, and after it what has left the active path. */
  ghost predicate Archives(states: seq<State>, s: State, s': State, kept: seq<Item>, gone: seq<Item>) {
    && s'.archive == kept + gone && Sorted(states, kept)
    && (forall e :: e in kept ==> e in s.archive)
    && (forall e :: e in gone ==> e in s.items && e !in s'.items)
  }

  lemma {:induction false} TruncationArchives(states: seq<State>, s: State, n: nat)
    requires UniqueIds(s.All()) && Sorted(states, s.archive) && n <= |s.items|
    ensures Archives(states, s, State(s.items[..n], s.archive + s.items[n..]), s.archive, s.items[n..])
  {
    var front, gone := s.items[..n], s.items[n..];
    assert s.items == front + gone;
    forall e | e in gone ensures e in s.items && e !in front {
      assert e in s.All();
      if e in front {
        assert multiset(front + gone)[e] == 1 by {
          assert multiset(s.All()) == multiset(s.items) + multiset(s.archive);
          assert e in s.items;
        }
        NotTwice(front, gone, e);
      }
    }
  }

  lemma {:induction false} RestoreArchives(states: seq<State>, s: State, c: seq<Item>, id: EntryId, s': State,
                                           r: Result<nat, BranchError>)
    returns (kept: seq<Item>, gone: seq<Item>)
    requires UniqueIds(s.All()) && Sorted(states, s.archive) && Rooted(s.All(), c, id) && Restores(s, c, s', r)
    ensures Archives(states, s, s', kept, gone)
  {
    var rest := TakeAll(s, Ids(c)).value.1;
    kept, gone := rest.archive, rest.items;
    TakeAllSorted(states, s, Ids(c));
    assert multiset(rest.All()) + multiset(c) == multiset(s.All()) by { TakeChain(s, c, id); }
    forall e | e in gone ensures e in s.items && e !in c {
      assert e in s.All() && e in rest.All();
      if e in c {
        assert multiset(rest.All() + c)[e] == 1;
        NotTwice(rest.All(), c, e);
      }
    }
  }

  lemma {:induction false} BranchArchives(states: seq<State>, s: State, id: EntryId, s': State,
                                          r: Result<nat, BranchError>)
    returns (kept: seq<Item>, gone: seq<Item>)
    requires UniqueIds(s.All()) && Sorted(states, s.archive) && Branches(s, id, s', r)
    ensures Archives(states, s, s', kept, gone)
  {
    match Find(s.items, id)
    case Some(p) =>
      kept, gone := s.archive, s.items[p + 1..];
      TruncationArchives(states, s, p + 1);
    case None =>
      if r.Ok? {
        kept, gone := RestoreArchives(states, s, ChainTo(s.All(), id).value, id, s', r);
      } else {
        kept, gone := s.archive, [];
        NothingArchived(states, s);
      }
  }

  lemma {:induction false} NothingArchived(states: seq<State>, s: State)
    requires Sorted(states, s.archive)
    ensures Archives(states, s, s, s.archive, [])
  {
    assert s.archive + [] == s.archive;
  }

  /** The archive is in the order in which its entries last left the active path, and all of them did. */
  ghost predicate InOrder(states: seq<State>, archive: seq<Item>) {
    Sorted(states, archive) && forall e :: e in archive ==> Left(states, e) > 0
  }

  /** One more step: what it archives is last in order. */
  lemma {:induction false} ArchivesInOrder(states: seq<State>, kept: seq<Item>, gone: seq<Item>)
    requires |states| >= 2
    requires var n := |states| - 1;
             && InOrder(states[..n], kept)
             && (forall e :: e in kept ==> e !in states[n - 1].items)
             && (forall e :: e in gone ==> e in states[n - 1].items && e !in states[n].items)
    ensures InOrder(states, kept + gone)
  {
    var n := |states| - 1;
    forall e | e in kept ensures 0 < Left(states, e) < n && Left(states, e) == Left(states[..n], e) {
      LeftBefore(states[..n], e);
    }
    assert forall e :: e in gone ==> Left(states, e) == n;
    assert Sorted(states, kept) by {
      forall i, j | 0 <= i < j < |kept| ensures Left(states, kept[i]) <= Left(states, kept[j]) {
        assert kept[i] in kept && kept[j] in kept && Left(states[..n], kept[i]) <= Left(states[..n], kept[j]);
      }
    }
    SortedConcat(states, kept, gone, n);
  }

  lemma {:induction false} SortedConcat(states: seq<State>, kept: seq<Item>, gone: seq<Item>, n: nat)
    requires Sorted(states, kept) && forall e :: e in kept ==> 0 < Left(states, e) < n
    requires n > 0 && forall e :: e in gone ==> Left(states, e) == n
    ensures InOrder(states, kept + gone)
  {
    var all := kept + gone;
    forall i, j | 0 <= i < j < |all| ensures Left(states, all[i]) <= Left(states, all[j]) {
      if |kept| <= j {
        assert all[j] in gone && (if i < |kept| then all[i] in kept else all[i] in gone);
      } else {
        assert all[i] == kept[i] && all[j] == kept[j];
      }
    }
  }

  lemma {:induction false} ArchivedIsOff(s: State, e: Item)
    requires UniqueIds(s.All()) && e in s.archive
    ensures e !in s.items
  {
    if e in s.items {
      assert e in s.All();
      NotTwice(s.items, s.archive, e);
    }
  }

  lemma {:induction false} RunUpTo(states: seq<State>, ops: seq<Op>, n: nat)
    requires Run(states, ops) && n <= |ops|
    ensures Run(states[..n + 1], ops[..n]) && WellFormed(states[n])
  {
    RunKeepsTree(states[..n + 1], ops[..n]);
    assert Last(states[..n + 1]) == states[n];
  }

  lemma {:induction false} RunOrdersArchive(states: seq<State>, ops: seq<Op>)
    requires Run(states, ops)
    ensures InOrder(states, Last(states).archive)
    decreases |ops|
  {
    if ops != [] {
      var n := |ops| - 1;
      var front, s, s' := states[..n + 1], states[n], states[n + 1];
      RunUpTo(states, ops, n);
      assert InOrder(front, s.archive) by {
        RunOrdersArchive(front, ops[..n]);
        assert Last(front) == s;
      }
      var kept, gone := StepArchives(front, s, ops[n], s');
      forall e | e in kept ensures e !in s.items {
        ArchivedIsOff(s, e);
      }
      ArchivesInOrder(states, kept, gone);
    }
  }

  lemma {:induction false} KeptInOrder(states: seq<State>, s: State, s': State, kept: seq<Item>, gone: seq<Item>)
    requires InOrder(states, s.archive) && Archives(states, s, s', kept, gone)
    ensures InOrder(states, kept)
  {
  }

  lemma {:induction false} PushArchives(states: seq<State>, s: State, item: Item)
    requires Sorted(states, s.archive)
    ensures Archives(states, s, Pushed(s, item), s.archive, [])
  {
    assert s.archive + [] == s.archive;
  }

  lemma {:induction false} StepArchives(states: seq<State>, s: State, op: Op, s': State)
    returns (kept: seq<Item>, gone: seq<Item>)
    requires UniqueIds(s.All()) && InOrder(states, s.archive) && Step(s, op, s')
    ensures Archives(states, s, s', kept, gone) && InOrder(states, kept)
  {
    if op.Push? {
      kept, gone := s.archive, [];
      PushArchives(states, s, op.item);
    } else {
      var r :| Branches(s, op.id, s', r);
      kept, gone := BranchArchives(states, s, op.id, s', r);
      KeptInOrder(states, s, s', kept, gone);
    }
  }

  // ---------------------------------------------------------------- siblings

  lemma {:induction false} ParentIsBefore(all: seq<Item>, c: seq<Item>, target: EntryId, p: nat)
    requires Rooted(all, c, target) && p < |c| && c[p].parent.Some?
    ensures p > 0 && c[p - 1].id == c[p].parent.value
  {
    assert Rooted(all, c[..p + 1], c[p].id) by { RootedPrefix(all, c, target, p + 1); }
    assert c[..p + 1][..p] == c[..p] && Last(c[..p + 1]) == c[p];
    assert Rooted(all, c[..p], c[p].parent.value);
    assert Last(c[..p]) == c[p - 1];
  }

  /** No two entries of one path have the same parent. */
  lemma {:induction false} SiblingsOnPath(all: seq<Item>, c: seq<Item>, target: EntryId, p: nat, q: nat)
    requires Rooted(all, c, target) && p < |c| && q < |c| && c[p].parent.Some? && c[p].parent == c[q].parent
    ensures p == q
  {
    ParentIsBefore(all, c, target, p);
    ParentIsBefore(all, c, target, q);
    RootedInjective(all, c, target, p - 1, q - 1);
  }

  lemma {:induction false} AtMostOneChild(s: seq<Item>, id: EntryId)
    requires forall p, q :: 0 <= p < q < |s| ==> !(s[p].parent == Some(id) && s[q].parent == Some(id))
    ensures |ChildrenIn(s, id)| <= 1
    decreases |s|
  {
    if s != [] {
      var front := s[..|s| - 1];
      AtMostOneChild(front, id);
      if ChildrenIn(front, id) != [] {
        var e := ChildrenIn(front, id)[0];
        ChildIn(front, id, e);
      }
    }
  }

  /** At most one child is on the active path. */
  lemma {:induction false} OneActiveChild(s: State, id: EntryId)
    requires WellFormed(s)
    ensures |ChildrenIn(s.items, id)| <= 1
  {
    forall p, q | 0 <= p < q < |s.items| ensures !(s.items[p].parent == Some(id) && s.items[q].parent == Some(id)) {
      if s.items[p].parent == Some(id) && s.items[q].parent == Some(id) {
        SiblingsOnPath(s.All(), s.items, Last(s.items).id, p, q);
      }
    }
    AtMostOneChild(s.items, id);
  }

  /** Of two siblings, no step takes both off the active path. */
  lemma {:induction false} SiblingsLeaveApart(states: seq<State>, ops: seq<Op>, x: Item, y: Item)
    requires Run(states, ops) && x.parent.Some? && x.parent == y.parent
    requires Left(states, x) == Left(states, y) > 0
    ensures x == y
  {
    var k := Left(states, x);
    LeftWhen(states, x);
    LeftWhen(states, y);
    RunUpTo(states, ops, k - 1);
    var s := states[k - 1];
    var p :| 0 <= p < |s.items| && s.items[p] == x;
    var q :| 0 <= q < |s.items| && s.items[q] == y;
    SiblingsOnPath(s.All(), s.items, Last(s.items).id, p, q);
  }

  lemma {:induction false} ChildrenSorted(states: seq<State>, s: seq<Item>, id: EntryId)
    requires Sorted(states, s)
    ensures Sorted(states, ChildrenIn(s, id))
    decreases |s|
  {
    if s != [] {
      var front, item := s[..|s| - 1], Last(s);
      var before := ChildrenIn(front, id);
      ChildrenSorted(states, front, id);
      forall i | 0 <= i < |before| ensures Left(states, before[i]) <= Left(states, item) {
        ChildIn(front, id, before[i]);
      }
    }
  }

  lemma {:induction false} TwiceCounts(s: seq<Item>, i: nat, j: nat)
    requires i < j < |s| && s[i] == s[j]
    ensures multiset(s)[s[i]] >= 2
  {
    assert s == s[..j] + s[j..];
    assert s[..j][i] == s[i] && s[j..][0] == s[i];
    assert multiset(s[..j])[s[i]] >= 1 && multiset(s[j..])[s[i]] >= 1;
  }

  /** `x` is on the active path, or neither is and `x` was the first of the two to leave it for the last time. */
  ghost predicate Precedes(states: seq<State>, x: Item, y: Item)
    requires states != []
  {
    var active := Last(states).items;
    x in active || (y !in active && Left(states, x) < Left(states, y))
  }

  /** After any run, every entry whose parent is `id` is listed, and listed once. */
  lemma {:induction false} ChildrenListedOnce(states: seq<State>, ops: seq<Op>, id: EntryId, e: Item)
    requires Run(states, ops)
    ensures multiset(Children(Last(states), id))[e] ==
              if e in Last(states).All() && e.parent == Some(id) then 1 else 0
  {
    RunKeepsTree(states, ops);
    ChildCount(Last(states).All(), id, e);
    assert e in Last(states).All() <==> e in multiset(Last(states).All());
  }

  lemma {:induction false} ChildrenSplit(s: State, id: EntryId)
    requires WellFormed(s)
    ensures Children(s, id) == ChildrenIn(s.items, id) + ChildrenIn(s.archive, id)
    ensures |ChildrenIn(s.items, id)| <= 1
  {
    ChildrenConcat(s.items, s.archive, id);
    OneActiveChild(s, id);
  }

  lemma {:induction false} ChildrenAreWhere(s: State, id: EntryId)
    requires WellFormed(s)
    ensures forall e :: e in ChildrenIn(s.items, id) ==> e in s.items
    ensures forall e :: e in ChildrenIn(s.archive, id) ==> e !in s.items
  {
    forall e | e in ChildrenIn(s.items, id) ensures e in s.items {
      ChildIn(s.items, id, e);
    }
    forall e | e in ChildrenIn(s.archive, id) ensures e !in s.items {
      ChildIn(s.archive, id, e);
      ArchivedIsOff(s, e);
    }
  }

  /** At most one on the active path, then others off it, in strict order of leaving. */
  ghost predicate Arranged(states: seq<State>, active: seq<Item>, on: seq<Item>, off: seq<Item>) {
    && |on| <= 1
    && (forall e :: e in on ==> e in active)
    && (forall e :: e in off ==> e !in active)
    && (forall i, j :: 0 <= i < j < |off| ==> Left(states, off[i]) < Left(states, off[j]))
  }

  lemma {:induction false} ArrangedPrecedes(states: seq<State>, on: seq<Item>, off: seq<Item>, i: nat, j: nat)
    requires states != [] && Arranged(states, Last(states).items, on, off) && i < j < |on + off|
    ensures Precedes(states, (on + off)[i], (on + off)[j]) && !Precedes(states, (on + off)[j], (on + off)[i])
  {
    assert (on + off)[j] == off[j - |on|];
    assert (on + off)[i] == if i < |on| then on[i] else off[i - |on|];
  }

  lemma {:induction false} ChildrenArranged(states: seq<State>, ops: seq<Op>, id: EntryId)
    requires Run(states, ops)
    ensures var s := Last(states); Arranged(states, s.items, ChildrenIn(s.items, id), ChildrenIn(s.archive, id))
    ensures var s := Last(states); Children(s, id) == ChildrenIn(s.items, id) + ChildrenIn(s.archive, id)
  {
    var s := Last(states);
    assert WellFormed(s) by { RunKeepsTree(states, ops); }
    ChildrenSplit(s, id);
    ChildrenAreWhere(s, id);
    var off := ChildrenIn(s.archive, id);
    forall i, j | 0 <= i < j < |off| ensures Left(states, off[i]) < Left(states, off[j]) {
      ArchivedChildren(states, ops, id, i, j);
    }
  }

  lemma {:induction false} EarlierPrecedes(states: seq<State>, ops: seq<Op>, id: EntryId, i: nat, j: nat)
    requires Run(states, ops) && i < j < |Children(Last(states), id)|
    ensures var cs := Children(Last(states), id);
            Precedes(states, cs[i], cs[j]) && !Precedes(states, cs[j], cs[i])
  {
    var s := Last(states);
    ChildrenArranged(states, ops, id);
    ArrangedPrecedes(states, ChildrenIn(s.items, id), ChildrenIn(s.archive, id), i, j);
  }

  lemma {:induction false} ChildrenDiffer(s: State, id: EntryId, i: nat, j: nat)
    requires UniqueIds(s.All()) && i < j < |ChildrenIn(s.archive, id)|
    ensures ChildrenIn(s.archive, id)[i] != ChildrenIn(s.archive, id)[j]
  {
    var off := ChildrenIn(s.archive, id);
    ChildIn(s.archive, id, off[i]);
    ChildCount(s.archive, id, off[i]);
    assert off[i] in s.All() && multiset(s.All()) == multiset(s.items) + multiset(s.archive);
    if off[i] == off[j] {
      TwiceCounts(off, i, j);
    }
  }

  lemma {:induction false} ArchivedChildren(states: seq<State>, ops: seq<Op>, id: EntryId, i: nat, j: nat)
    requires Run(states, ops) && i < j < |ChildrenIn(Last(states).archive, id)|
    ensures var off := ChildrenIn(Last(states).archive, id); Left(states, off[i]) < Left(states, off[j])
  {
    var s := Last(states);
    var off := ChildrenIn(s.archive, id);
    var x, y := off[i], off[j];
    assert WellFormed(s) by { RunKeepsTree(states, ops); }
    assert InOrder(states, s.archive) by { RunOrdersArchive(states, ops); }
    assert Left(states, x) <= Left(states, y) by { ChildrenSorted(states, s.archive, id); }
    ChildIn(s.archive, id, x);
    ChildIn(s.archive, id, y);
    ChildrenDiffer(s, id, i, j);
    if Left(states, x) == Left(states, y) {
      SiblingsLeaveApart(states, ops, x, y);
    }
  }

  /**
   After any run, children are listed with the one on the active path first and then the others in the order in which
   they last left it.
   */
  lemma {:induction false} ChildrenOrder(states: seq<State>, ops: seq<Op>, id: EntryId, i: nat, j: nat)
    requires Run(states, ops) && i != j && i < |Children(Last(states), id)| && j < |Children(Last(states), id)|
    ensures i < j <==> Precedes(states, Children(Last(states), id)[i], Children(Last(states), id)[j])
  {
    if i < j {
      EarlierPrecedes(states, ops, id, i, j);
    } else {
      EarlierPrecedes(states, ops, id, j, i);
    }
  }

  // ---------------------------------------------------------------- creation order

  /** The first state of the history that holds `e`. */
  ghost function Born(states: seq<State>, e: Item): nat
    decreases |states|
  {
    if states == [] || e in states[0].All() then 0 else 1 + Born(states[1..], e)
  }

  ghost predicate CreationOrder(states: seq<State>, cs: seq<Item>) {
    forall i, j :: 0 <= i < j < |cs| ==> Born(states, cs[i]) <= Born(states, cs[j])
  }

  /** The older sibling is on the active path, or neither is and the older one was first to leave it for good. */
  ghost predicate ElderFirst(states: seq<State>, cs: seq<Item>)
    requires states != []
  {
    forall i, j :: 0 <= i < |cs| && 0 <= j < |cs| && Born(states, cs[i]) < Born(states, cs[j]) ==>
      Precedes(states, cs[i], cs[j])
  }

  /** Children are listed in the order of their creation exactly when of any two the elder one comes first so. */
  lemma {:induction false} CreationOrderExactlyWhen(states: seq<State>, ops: seq<Op>, id: EntryId)
    requires Run(states, ops)
    ensures CreationOrder(states, Children(Last(states), id)) <==> ElderFirst(states, Children(Last(states), id))
  {
    var cs := Children(Last(states), id);
    forall i, j | 0 <= i < |cs| && 0 <= j < |cs| && i != j ensures i < j <==> Precedes(states, cs[i], cs[j]) {
      ChildrenOrder(states, ops, id, i, j);
    }
  }

  /** Two children of one entry, the second on the branch that was taken last: it is listed before the first. */
  lemma {:induction false} ChildrenOutOfOrder(a: Item, b: Item, c: Item) returns (states: seq<State>, ops: seq<Op>)
    requires a.id != b.id && a.id != c.id && b.id != c.id
    ensures Run(states, ops) && !CreationOrder(states, Children(Last(states), a.id))
  {
    var root, elder, younger := a.(parent := None), b.(parent := Some(a.id)), c.(parent := Some(a.id));
    var s0, s1, s2 := State([], []), State([root], []), State([root, elder], []);
    var s3, s4 := State([root], [elder]), State([root, younger], [elder]);
    states, ops := [s0, s1, s2, s3, s4], [Push(a), Push(b), Branch(a.id), Push(c)];
    assert Step(s0, Push(a), s1) && Step(s1, Push(b), s2);
    assert Step(s2, Branch(a.id), s3) by { BackToRoot(root, elder); }
    assert Step(s3, Push(c), s4);
    FourSteps(states, ops);
    assert Children(s4, a.id) == [younger, elder] by { YoungerFirst(s4, root, younger, elder, a.id); }
    assert Born(states, elder) <= 2 && Born(states, younger) >= 4 by { BornTimes(states, elder, younger); }
    NotInOrder(states, younger, elder);
  }

  lemma {:induction false} BackToRoot(root: Item, elder: Item)
    requires root.id != elder.id
    ensures Branches(State([root, elder], []), root.id, State([root], [elder]), Ok(1))
  {
    FindFirst([root, elder], 0, root.id);
  }

  lemma {:induction false} FourSteps(states: seq<State>, ops: seq<Op>)
    requires |states| == 5 && |ops| == 4 && states[0] == State([], [])
    requires Step(states[0], ops[0], states[1]) && Step(states[1], ops[1], states[2])
    requires Step(states[2], ops[2], states[3]) && Step(states[3], ops[3], states[4])
    ensures Run(states, ops)
  {
  }

  lemma {:induction false} NotInOrder(states: seq<State>, x: Item, y: Item)
    requires Born(states, y) < Born(states, x)
    ensures !CreationOrder(states, [x, y])
  {
    assert [x, y][0] == x && [x, y][1] == y;
  }

  lemma {:induction false} YoungerFirst(s: State, root: Item, younger: Item, elder: Item, id: EntryId)
    requires s == State([root, younger], [elder]) && root.parent.None?
    requires younger.parent == Some(id) && elder.parent == Some(id)
    ensures Children(s, id) == [younger, elder]
  {
    assert s.All() == ([] + [root]) + [younger] + [elder];
    ChildrenAppend([], root, id);
    ChildrenAppend([] + [root], younger, id);
    ChildrenAppend([] + [root] + [younger], elder, id);
  }

  lemma {:induction false} BornTimes(states: seq<State>, elder: Item, younger: Item)
    requires |states| == 5 && elder in states[2].All() && forall k :: 0 <= k < 4 ==> younger !in states[k].All()
    ensures Born(states, elder) <= 2 && Born(states, younger) >= 4
  {
    BornBy(states, elder, 2);
    NotBornBy(states, younger, 4);
  }

  lemma {:induction false} BornBy(states: seq<State>, e: Item, k: nat)
    requires k < |states| && e in states[k].All()
    ensures Born(states, e) <= k
    decreases k
  {
    if e !in states[0].All() {
      BornBy(states[1..], e, k - 1);
    }
  }

  lemma {:induction false} NotBornBy(states: seq<State>, e: Item, k: nat)
    requires k <= |states| && forall i :: 0 <= i < k ==> e !in states[i].All()
    ensures Born(states, e) >= k
    decreases k
  {
    if k > 0 {
      NotBornBy(states[1..], e, k - 1);
    }
  }
}
