/**
 A conversation as a tree of entries split over two vectors: `items`, the active
 path root to leaf, and `archive`, everything off it.

 The class at the end is the program; the functions and predicates before it say
 what its methods compute, and the lemmas what follows for every run.
 */
module Transcript {
  import opened Base
  import opened Entries

  datatype BranchError = UnknownEntry(id: EntryId) | BrokenChain(entry: EntryId, missing: EntryId)

  // ---------------------------------------------------------------- lookup

  /** The first position holding `id`. */
  function Find(s: seq<Item>, id: EntryId): (r: Option<nat>)
    ensures r.Some? ==> r.value < |s| && s[r.value].id == id && forall k :: 0 <= k < r.value ==> s[k].id != id
    ensures r.None? ==> forall k :: 0 <= k < |s| ==> s[k].id != id
  {
    if s == [] then None
    else if s[0].id == id then Some(0)
    else match Find(s[1..], id)
      case None => None
      case Some(k) => Some(k + 1)
  }

  /** The first entry of `all` carrying `id`. */
  function Entry(all: seq<Item>, id: EntryId): (r: Option<Item>)
    ensures r.Some? ==> r.value in all && r.value.id == id
    ensures r.None? <==> forall e :: e in all ==> e.id != id
  {
    match Find(all, id)
    case None => None
    case Some(k) => Some(all[k])
  }

  function Last<T>(s: seq<T>): T
    requires |s| > 0
  {
    s[|s| - 1]
  }

  function Ids(s: seq<Item>): (r: seq<EntryId>)
    ensures |r| == |s| && forall k :: 0 <= k < |s| ==> r[k] == s[k].id
  {
    seq(|s|, i requires 0 <= i < |s| => s[i].id)
  }

  // ---------------------------------------------------------------- chains

  ghost predicate Distinct(ids: seq<EntryId>) {
    forall i, j :: 0 <= i < j < |ids| ==> ids[i] != ids[j]
  }

  /** `c` is the parent chain from a root down to `id`, each entry being the one `all` answers for its id. */
  ghost predicate Rooted(all: seq<Item>, c: seq<Item>, id: EntryId)
    decreases |c|
  {
    && |c| > 0
    && Entry(all, id) == Some(Last(c))
    && match Last(c).parent
       case None => |c| == 1
       case Some(p) => Rooted(all, c[..|c| - 1], p)
  }

  /** The root-to-`id` chain, when there is one. */
  ghost function ChainTo(all: seq<Item>, id: EntryId): (r: Option<seq<Item>>)
    ensures r.Some? ==> Rooted(all, r.value, id)
    ensures r.None? ==> forall c :: !Rooted(all, c, id)
  {
    if exists c :: Rooted(all, c, id) then
      var c :| Rooted(all, c, id);
      Some(c)
    else None
  }

  lemma {:induction false} RootedUnique(all: seq<Item>, c: seq<Item>, d: seq<Item>, id: EntryId)
    requires Rooted(all, c, id) && Rooted(all, d, id)
    ensures c == d
    decreases |c|
  {
    if Last(c).parent.Some? {
      RootedUnique(all, c[..|c| - 1], d[..|d| - 1], Last(c).parent.value);
      assert c == c[..|c| - 1] + [Last(c)] && d == d[..|d| - 1] + [Last(d)];
    }
  }

  lemma {:induction false} RootedPrefix(all: seq<Item>, c: seq<Item>, id: EntryId, k: nat)
    requires Rooted(all, c, id) && 0 < k <= |c|
    ensures Rooted(all, c[..k], c[k - 1].id)
    decreases |c|
  {
    if k == |c| {
      assert c[..k] == c;
    } else {
      RootedPrefix(all, c[..|c| - 1], Last(c).parent.value, k);
      assert c[..|c| - 1][..k] == c[..k];
    }
  }

  /** A rooted chain never repeats an id: a repeat would give one id two chains of different lengths. */
  lemma {:induction false} RootedInjective(all: seq<Item>, c: seq<Item>, id: EntryId, i: nat, j: nat)
    requires Rooted(all, c, id) && i < |c| && j < |c| && c[i].id == c[j].id
    ensures i == j
    decreases |c|
  {
    var n := |c| - 1;
    if i == n {
      LastIsNew(all, c, id, j);
    } else if j == n {
      LastIsNew(all, c, id, i);
    } else {
      RootedInjective(all, c[..n], Last(c).parent.value, i, j);
    }
  }

  lemma {:induction false} LastIsNew(all: seq<Item>, c: seq<Item>, id: EntryId, j: nat)
    requires Rooted(all, c, id) && j < |c| && c[j].id == Last(c).id
    ensures j == |c| - 1
  {
    assert Rooted(all, c[..j + 1], id) by { RootedPrefix(all, c, id, j + 1); }
    SameLength(all, c, c[..j + 1], id);
  }

  lemma {:induction false} SameLength(all: seq<Item>, c: seq<Item>, d: seq<Item>, id: EntryId)
    requires Rooted(all, c, id) && Rooted(all, d, id)
    ensures |c| == |d|
  {
    RootedUnique(all, c, d, id);
  }

  lemma {:induction false} RootedDistinct(all: seq<Item>, c: seq<Item>, id: EntryId)
    requires Rooted(all, c, id)
    ensures Distinct(Ids(c))
  {
    forall i, j | 0 <= i < j < |c| ensures Ids(c)[i] != Ids(c)[j] {
      if c[i].id == c[j].id {
        RootedInjective(all, c, id, i, j);
      }
    }
  }

  lemma {:induction false} RootedMembers(all: seq<Item>, c: seq<Item>, id: EntryId)
    requires Rooted(all, c, id)
    ensures forall k :: 0 <= k < |c| ==> Entry(all, c[k].id) == Some(c[k]) && c[k] in all
  {
    forall k | 0 <= k < |c| ensures Entry(all, c[k].id) == Some(c[k]) {
      RootedPrefix(all, c, id, k + 1);
      assert Last(c[..k + 1]) == c[k];
    }
  }

  lemma {:induction false} DistinctBound(ids: seq<EntryId>, pool: set<EntryId>)
    requires Distinct(ids)
    requires forall i :: 0 <= i < |ids| ==> ids[i] in pool
    ensures |ids| <= |pool|
    decreases |ids|
  {
    if |ids| > 0 {
      DistinctBound(ids[1..], pool - {ids[0]});
    }
  }

  lemma {:induction false} IdSetBound(all: seq<Item>)
    ensures |set e <- all :: e.id| <= |all|
  {
    if |all| > 0 {
      IdSetBound(all[1..]);
      assert (set e <- all :: e.id) == (set e <- all[1..] :: e.id) + {all[0].id} by {
        assert all == [all[0]] + all[1..];
      }
    }
  }

  /** Pigeonhole: a rooted chain is no longer than the tree, so the walk's length guard never cuts one off. */
  lemma {:induction false} RootedBound(all: seq<Item>, c: seq<Item>, id: EntryId)
    requires Rooted(all, c, id)
    ensures |c| <= |all|
  {
    RootedMembers(all, c, id);
    RootedDistinct(all, c, id);
    DistinctBound(Ids(c), set e <- all :: e.id);
    IdSetBound(all);
  }

  // ---------------------------------------------------------------- the upward walk

  /** Following parent links up from `id` visits `taken` (root end first) and arrives at `cur`. */
  ghost predicate Trail(all: seq<Item>, id: EntryId, cur: EntryId, taken: seq<Item>)
    decreases |taken|
  {
    if taken == [] then cur == id
    else
      && taken[0].parent == Some(cur)
      && Entry(all, taken[0].id) == Some(taken[0])
      && Trail(all, id, taken[0].id, taken[1..])
  }

  lemma {:induction false} TrailStep(all: seq<Item>, id: EntryId, cur: EntryId, taken: seq<Item>, item: Item)
    requires Trail(all, id, cur, taken) && Entry(all, cur) == Some(item) && item.parent.Some?
    ensures Trail(all, id, item.parent.value, [item] + taken)
  {
    assert ([item] + taken)[1..] == taken;
  }

  lemma {:induction false} RootedParent(all: seq<Item>, c: seq<Item>, item: Item)
    requires Rooted(all, c, item.id) && Entry(all, item.id) == Some(item) && item.parent.Some?
    ensures |c| > 1 && Rooted(all, c[..|c| - 1], item.parent.value)
  {
  }

  lemma {:induction false} RootedChild(all: seq<Item>, c: seq<Item>, item: Item)
    requires item.parent.Some? && Rooted(all, c, item.parent.value) && Entry(all, item.id) == Some(item)
    ensures Rooted(all, c + [item], item.id)
  {
    assert (c + [item])[..|c|] == c;
  }

  lemma {:induction false} TrailMeetsChain(all: seq<Item>, id: EntryId, cur: EntryId, taken: seq<Item>, c: seq<Item>)
    requires Trail(all, id, cur, taken) && Rooted(all, c, id)
    ensures |taken| < |c|
    ensures Rooted(all, c[..|c| - |taken|], cur)
    decreases |taken|
  {
    if taken == [] {
      assert c[..|c|] == c;
    } else {
      var more := taken[1..];
      assert |more| < |c| && Rooted(all, c[..|c| - |more|], taken[0].id) by {
        TrailMeetsChain(all, id, taken[0].id, more, c);
      }
      var d := c[..|c| - |more|];
      assert |d| > 1 && Rooted(all, d[..|d| - 1], cur) by { RootedParent(all, d, taken[0]); }
      assert d[..|d| - 1] == c[..|c| - |taken|];
    }
  }

  lemma {:induction false} TrailCompletesChain(all: seq<Item>, id: EntryId, cur: EntryId, taken: seq<Item>,
                                               d: seq<Item>)
    requires Trail(all, id, cur, taken) && Rooted(all, d, cur)
    ensures Rooted(all, d + taken, id)
    decreases |taken|
  {
    if taken == [] {
      assert d + taken == d;
    } else {
      var item, more := taken[0], taken[1..];
      assert Rooted(all, d + [item], item.id) by { RootedChild(all, d, item); }
      assert Rooted(all, (d + [item]) + more, id) by { TrailCompletesChain(all, id, item.id, more, d + [item]); }
      assert d + taken == (d + [item]) + more;
    }
  }

  /** What a refused walk reports: a named parent that is nowhere, or, naming `id` itself, links that never end. */
  ghost predicate BrokenAt(all: seq<Item>, id: EntryId, missing: EntryId) {
    || (Entry(all, missing).None? && exists taken :: Trail(all, id, missing, taken))
    || (missing == id && exists cur, taken :: Trail(all, id, cur, taken) && |taken| > |all|)
  }

  /** A refused walk had no rooted chain to find, whatever the data. */
  lemma {:induction false} BrokenMeansNoChain(all: seq<Item>, id: EntryId, missing: EntryId)
    requires BrokenAt(all, id, missing)
    ensures ChainTo(all, id).None?
  {
    if c :| Rooted(all, c, id) {
      if Entry(all, missing).None? && exists taken :: Trail(all, id, missing, taken) {
        var taken :| Trail(all, id, missing, taken);
        TrailMeetsChain(all, id, missing, taken, c);
      } else {
        var cur, taken :| Trail(all, id, cur, taken) && |taken| > |all|;
        TrailMeetsChain(all, id, cur, taken, c);
        RootedBound(all, c, id);
      }
    }
  }

  function Upward(path: seq<EntryId>): (r: seq<EntryId>)
    ensures |r| == |path| && forall k :: 0 <= k < |r| ==> r[k] == path[|path| - 1 - k]
  {
    seq(|path|, i requires 0 <= i < |path| => path[|path| - 1 - i])
  }

  /** `path` are the ids of `taken`, last first, and the walk is at `cursor`, or past the root. */
  ghost predicate Walked(all: seq<Item>, id: EntryId, cursor: Option<EntryId>, path: seq<EntryId>, taken: seq<Item>) {
    && |path| == |taken|
    && (forall k :: 0 <= k < |path| ==> path[k] == taken[|path| - 1 - k].id)
    && (cursor.Some? ==> Trail(all, id, cursor.value, taken))
    && (cursor.None? ==> Rooted(all, taken, id))
  }

  ghost predicate Walking(all: seq<Item>, id: EntryId, cursor: Option<EntryId>, path: seq<EntryId>, taken: seq<Item>) {
    Walked(all, id, cursor, path, taken) && |path| <= |all|
  }

  /** One step up, to the parent or past the root; only a walk that has not reached a root can be too long. */
  lemma {:induction false} WalkOn(all: seq<Item>, id: EntryId, current: EntryId, path: seq<EntryId>, taken: seq<Item>,
                                  item: Item)
    requires Walking(all, id, Some(current), path, taken) && Entry(all, current) == Some(item)
    ensures Walked(all, id, item.parent, path + [current], [item] + taken)
    ensures item.parent.None? ==> |path| + 1 <= |all|
  {
    if item.parent.None? {
      assert Rooted(all, [item], current);
      TrailCompletesChain(all, id, current, taken, [item]);
      RootedBound(all, [item] + taken, id);
    } else {
      TrailStep(all, id, current, taken, item);
    }
  }

  // ---------------------------------------------------------------- taking entries out

  datatype State = State(items: seq<Item>, archive: seq<Item>) {
    function All(): seq<Item> { items + archive }
  }

  function RemoveAt(s: seq<Item>, k: nat): (r: seq<Item>)
    requires k < |s|
  {
    s[..k] + s[k + 1..]
  }

  /** Removes the first entry carrying `id`, from `items` when it is there. */
  function Take(s: State, id: EntryId): (r: Option<(Item, State)>)
  {
    match Find(s.items, id)
    case Some(k) => Some((s.items[k], s.(items := RemoveAt(s.items, k))))
    case None =>
      match Find(s.archive, id)
      case Some(k) => Some((s.archive[k], s.(archive := RemoveAt(s.archive, k))))
      case None => None
  }

  function TakeAll(s: State, ids: seq<EntryId>): (r: Option<(seq<Item>, State)>)
    decreases |ids|
  {
    if ids == [] then Some(([], s))
    else match TakeAll(s, ids[..|ids| - 1])
      case None => None
      case Some((taken, rest)) =>
        match Take(rest, Last(ids))
        case None => None
        case Some((item, rest')) => Some((taken + [item], rest'))
  }

  lemma {:induction false} FindFirst(s: seq<Item>, k: nat, id: EntryId)
    requires k < |s| && s[k].id == id && forall i :: 0 <= i < k ==> s[i].id != id
    ensures Find(s, id) == Some(k) && Entry(s, id) == Some(s[k])
  {
  }

  lemma {:induction false} RemovedIndex(s: seq<Item>, k: nat, i: nat)
    requires k < |s| && i < |s| - 1
    ensures RemoveAt(s, k)[i] == if i < k then s[i] else s[i + 1]
  {
  }

  lemma {:induction false} RemoveAtKeeps(s: seq<Item>, k: nat, id: EntryId)
    requires k < |s| && s[k].id != id
    ensures Entry(RemoveAt(s, k), id) == Entry(s, id)
  {
    var t := RemoveAt(s, k);
    match Find(s, id)
    case None =>
      forall e | e in t ensures e in s {
      }
    case Some(p) =>
      var q := if p < k then p else p - 1;
      RemovedIndex(s, k, q);
      forall i | 0 <= i < q ensures t[i].id != id {
        RemovedIndex(s, k, i);
      }
      FindFirst(t, q, id);
  }

  lemma {:induction false} EntryConcat(a: seq<Item>, b: seq<Item>, id: EntryId)
    ensures Entry(a + b, id) == if Entry(a, id).Some? then Entry(a, id) else Entry(b, id)
  {
    var t := a + b;
    match Find(a, id)
    case Some(p) =>
      assert t[p] == a[p] && forall i :: 0 <= i < p ==> t[i] == a[i];
    case None =>
      match Find(b, id) {
        case Some(q) =>
          assert t[|a| + q] == b[q];
          assert forall i :: 0 <= i < |a| + q ==> t[i] == if i < |a| then a[i] else b[i - |a|];
        case None =>
      }
  }

  lemma {:induction false} RemoveAtMultiset(s: seq<Item>, k: nat)
    requires k < |s|
    ensures multiset(s) == multiset(RemoveAt(s, k)) + multiset{s[k]}
  {
    assert s == s[..k] + [s[k]] + s[k + 1..];
  }

  lemma {:induction false} TakeOne(s: State, id: EntryId)
    ensures Take(s, id).Some? <==> Entry(s.All(), id).Some?
    ensures Take(s, id).Some? ==>
              var (item, rest) := Take(s, id).value;
              && Entry(s.All(), id) == Some(item)
              && multiset(rest.All()) + multiset{item} == multiset(s.All())
              && forall other :: other != id ==> Entry(rest.All(), other) == Entry(s.All(), other)
  {
    EntryConcat(s.items, s.archive, id);
    if Take(s, id).Some? {
      var (item, rest) := Take(s, id).value;
      if Find(s.items, id).Some? {
        RemoveAtMultiset(s.items, Find(s.items, id).value);
      } else {
        RemoveAtMultiset(s.archive, Find(s.archive, id).value);
      }
      assert multiset(rest.All()) == multiset(rest.items) + multiset(rest.archive);
      forall other | other != id ensures Entry(rest.All(), other) == Entry(s.All(), other) {
        EntryConcat(s.items, s.archive, other);
        EntryConcat(rest.items, rest.archive, other);
        if Find(s.items, id).Some? {
          RemoveAtKeeps(s.items, Find(s.items, id).value, other);
        } else {
          RemoveAtKeeps(s.archive, Find(s.archive, id).value, other);
        }
      }
    }
  }

  /** `taken` are the entries `ids` name in `s`, and `rest` is everything else of `s`. */
  ghost predicate Extracted(s: State, ids: seq<EntryId>, taken: seq<Item>, rest: State) {
    && |taken| == |ids|
    && (forall k :: 0 <= k < |ids| ==> Entry(s.All(), ids[k]) == Some(taken[k]))
    && multiset(rest.All()) + multiset(taken) == multiset(s.All())
    && forall other :: other !in ids ==> Entry(rest.All(), other) == Entry(s.All(), other)
  }

  lemma {:induction false} ExtractedOneMore(s: State, ids: seq<EntryId>, taken: seq<Item>, rest: State,
                                            id: EntryId, item: Item, rest': State)
    requires Extracted(s, ids, taken, rest) && id !in ids && Take(rest, id) == Some((item, rest'))
    ensures Extracted(s, ids + [id], taken + [item], rest')
  {
    TakeOne(rest, id);
    assert multiset(taken + [item]) == multiset(taken) + multiset{item};
    forall other | other !in ids + [id] ensures Entry(rest'.All(), other) == Entry(s.All(), other) {
      assert other !in ids && other != id;
    }
  }

  /** Taking distinct present ids never comes up empty, yields the entry each id names, and loses nothing. */
  lemma {:induction false} TakeAllDistinct(s: State, ids: seq<EntryId>)
    requires Distinct(ids) && forall k :: 0 <= k < |ids| ==> Entry(s.All(), ids[k]).Some?
    ensures TakeAll(s, ids).Some?
    ensures Extracted(s, ids, TakeAll(s, ids).value.0, TakeAll(s, ids).value.1)
    decreases |ids|
  {
    if ids == [] {
      assert Extracted(s, [], [], s);
    } else {
      var front, last := ids[..|ids| - 1], Last(ids);
      assert ids == front + [last] && last !in front;
      TakeAllDistinct(s, front);
      var (taken, rest) := TakeAll(s, front).value;
      assert Entry(rest.All(), last) == Entry(s.All(), last);
      TakeOne(rest, last);
      var (item, rest') := Take(rest, last).value;
      ExtractedOneMore(s, front, taken, rest, last, item, rest');
    }
  }

  /** The entries of a chain are exactly what taking its ids out yields. */
  lemma {:induction false} TakeChain(s: State, c: seq<Item>, id: EntryId)
    requires Rooted(s.All(), c, id)
    ensures TakeAll(s, Ids(c)).Some? && TakeAll(s, Ids(c)).value.0 == c
    ensures multiset(TakeAll(s, Ids(c)).value.1.All()) + multiset(c) == multiset(s.All())
  {
    RootedMembers(s.All(), c, id);
    RootedDistinct(s.All(), c, id);
    TakeAllDistinct(s, Ids(c));
  }

  // ---------------------------------------------------------------- the operations

  /** The transcript one entry further on: its parent is whatever ended the active path. */
  function Pushed(s: State, item: Item): (r: State)
  {
    var parent := if s.items == [] then None else Some(Last(s.items).id);
    s.(items := s.items + [item.(parent := parent)])
  }

  /** The entries of `c` are taken out and become the active path; the old one joins the archive. */
  ghost predicate Restores(s: State, c: seq<Item>, s': State, r: Result<nat, BranchError>) {
    && TakeAll(s, Ids(c)).Some?
    && var rest := TakeAll(s, Ids(c)).value.1;
       s' == State(c, rest.archive + rest.items) && r == Ok(|rest.items|)
  }

  /** What moving the leaf to `id` does to any transcript at all, well formed or not. */
  ghost predicate Branches(s: State, id: EntryId, s': State, r: Result<nat, BranchError>) {
    match Find(s.items, id)
    case Some(p) =>
      s' == State(s.items[..p + 1], s.archive + s.items[p + 1..]) && r == Ok(|s.items| - p - 1)
    case None =>
      if Entry(s.archive, id).None? then s' == s && r == Err(UnknownEntry(id))
      else match ChainTo(s.All(), id)
        case Some(c) => Restores(s, c, s', r)
        case None =>
          && s' == s && r.Err? && r.error.BrokenChain?
          && r.error.entry == id && BrokenAt(s.All(), id, r.error.missing)
  }

  lemma {:induction false} TruncationConserves(s: State, n: nat)
    requires n <= |s.items|
    ensures multiset(s.items[..n] + (s.archive + s.items[n..])) == multiset(s.All())
  {
    assert s.items == s.items[..n] + s.items[n..];
  }

  lemma {:induction false} RestoreConserves(s: State, c: seq<Item>, id: EntryId, s': State, r: Result<nat, BranchError>)
    requires Rooted(s.All(), c, id) && Restores(s, c, s', r)
    ensures multiset(s'.All()) == multiset(s.All())
  {
    TakeChain(s, c, id);
    var rest := TakeAll(s, Ids(c)).value.1;
    assert multiset(rest.All()) == multiset(rest.items) + multiset(rest.archive);
  }

  /** No branch loses, copies or alters an entry, even on data with duplicate ids or broken links. */
  lemma {:induction false} BranchConserves(s: State, id: EntryId, s': State, r: Result<nat, BranchError>)
    requires Branches(s, id, s', r)
    ensures multiset(s'.All()) == multiset(s.All())
    ensures r.Err? ==> s' == s
  {
    match Find(s.items, id)
    case Some(p) => TruncationConserves(s, p + 1);
    case None =>
      if Entry(s.archive, id).Some? && ChainTo(s.All(), id).Some? {
        RestoreConserves(s, ChainTo(s.All(), id).value, id, s', r);
      }
  }

  // ---------------------------------------------------------------- well-formed trees

  /** Every entry is the one its id names, and is there once. */
  ghost predicate UniqueIds(all: seq<Item>) {
    forall e :: e in all ==> Entry(all, e.id) == Some(e) && multiset(all)[e] == 1
  }

  ghost predicate Reachable(all: seq<Item>) {
    forall e :: e in all ==> ChainTo(all, e.id).Some?
  }

  /** What holds of every transcript the operations can build. */
  ghost predicate WellFormed(s: State) {
    && UniqueIds(s.All())
    && Reachable(s.All())
    && (s.items != [] ==> Rooted(s.All(), s.items, Last(s.items).id))
  }

  ghost predicate Subtree(all: seq<Item>, all': seq<Item>) {
    forall e :: e in all ==> e in all'
  }

  lemma {:induction false} SameMembers(all: seq<Item>, all': seq<Item>)
    requires multiset(all) == multiset(all')
    ensures Subtree(all, all') && Subtree(all', all)
  {
    assert forall e :: e in all <==> e in multiset(all);
    assert forall e :: e in all' <==> e in multiset(all');
  }

  lemma {:induction false} UniquePermutes(all: seq<Item>, all': seq<Item>)
    requires UniqueIds(all) && multiset(all) == multiset(all')
    ensures UniqueIds(all')
  {
    SameMembers(all, all');
    forall e | e in all' ensures Entry(all', e.id) == Some(e) && multiset(all')[e] == 1 {
      assert e in all;
      var f := Entry(all', e.id).value;
      assert f in all;
    }
  }

  lemma {:induction false} RootedTransfers(all: seq<Item>, all': seq<Item>, c: seq<Item>, id: EntryId)
    requires Rooted(all, c, id) && UniqueIds(all') && Subtree(all, all')
    ensures Rooted(all', c, id)
    decreases |c|
  {
    assert Last(c) in all';
    if Last(c).parent.Some? {
      RootedTransfers(all, all', c[..|c| - 1], Last(c).parent.value);
    }
  }

  lemma {:induction false} ChainTransfers(all: seq<Item>, all': seq<Item>, id: EntryId)
    requires UniqueIds(all') && Subtree(all, all') && ChainTo(all, id).Some?
    ensures ChainTo(all', id) == ChainTo(all, id)
  {
    var c := ChainTo(all, id).value;
    RootedTransfers(all, all', c, id);
    RootedUnique(all', c, ChainTo(all', id).value, id);
  }

  lemma {:induction false} ReachablePermutes(all: seq<Item>, all': seq<Item>)
    requires Reachable(all) && UniqueIds(all') && multiset(all) == multiset(all')
    ensures Reachable(all')
  {
    SameMembers(all, all');
    forall e | e in all' ensures ChainTo(all', e.id).Some? {
      ChainTransfers(all, all', e.id);
    }
  }

  ghost predicate Fresh(all: seq<Item>, id: EntryId) {
    forall e :: e in all ==> e.id != id
  }

  lemma {:induction false} AddUnique(all: seq<Item>, all': seq<Item>, e: Item)
    requires UniqueIds(all) && Fresh(all, e.id) && multiset(all') == multiset(all) + multiset{e}
    ensures UniqueIds(all') && Subtree(all, all') && e in all'
    ensures forall f :: f in all' ==> f in all || f == e
  {
    assert forall f :: f in all' <==> f in multiset(all');
    assert forall f :: f in all <==> f in multiset(all);
    forall f | f in all' ensures Entry(all', f.id) == Some(f) && multiset(all')[f] == 1 {
      var g := Entry(all', f.id).value;
      assert g in all';
    }
  }

  lemma {:induction false} PushAdds(s: State, item: Item)
    ensures multiset(Pushed(s, item).All()) == multiset(s.All()) + multiset{Last(Pushed(s, item).items)}
  {
    var s' := Pushed(s, item);
    assert multiset(s'.All()) == multiset(s'.items) + multiset(s'.archive);
  }

  lemma {:induction false} PushExtendsPath(s: State, item: Item)
    requires WellFormed(s) && UniqueIds(Pushed(s, item).All()) && Subtree(s.All(), Pushed(s, item).All())
    ensures Rooted(Pushed(s, item).All(), Pushed(s, item).items, item.id)
  {
    var s' := Pushed(s, item);
    assert Last(s'.items) in s'.All();
    assert s'.items[..|s'.items| - 1] == s.items;
    if s.items != [] {
      RootedTransfers(s.All(), s'.All(), s.items, Last(s.items).id);
    }
  }

  lemma {:induction false} PushKeepsWellFormed(s: State, item: Item)
    requires WellFormed(s) && Fresh(s.All(), item.id)
    ensures WellFormed(Pushed(s, item))
  {
    var s' := Pushed(s, item);
    PushAdds(s, item);
    AddUnique(s.All(), s'.All(), Last(s'.items));
    PushExtendsPath(s, item);
    forall e | e in s'.All() ensures ChainTo(s'.All(), e.id).Some? {
      if e in s.All() {
        ChainTransfers(s.All(), s'.All(), e.id);
      }
    }
  }

  /**
   Whichever case ran — truncating the active path or rebuilding it from parent links — the new active
   path is exactly the root-to-`id` chain. An id nowhere in the tree is refused and nothing moves.
   */
  lemma {:induction false} BranchReachesTarget(s: State, id: EntryId, s': State, r: Result<nat, BranchError>)
    requires WellFormed(s) && Branches(s, id, s', r)
    ensures r.Ok? <==> Entry(s.All(), id).Some?
    ensures r.Ok? ==> s'.items != [] && Last(s'.items).id == id && ChainTo(s.All(), id) == Some(s'.items)
    ensures r.Err? ==> s' == s && r == Err(UnknownEntry(id))
  {
    EntryConcat(s.items, s.archive, id);
    match Find(s.items, id)
    case Some(p) =>
      RootedPrefix(s.All(), s.items, Last(s.items).id, p + 1);
      RootedUnique(s.All(), s'.items, ChainTo(s.All(), id).value, id);
    case None =>
      if Entry(s.archive, id).Some? {
        assert Entry(s.archive, id).value in s.All();
      }
  }

  lemma {:induction false} BranchKeepsWellFormed(s: State, id: EntryId, s': State, r: Result<nat, BranchError>)
    requires WellFormed(s) && Branches(s, id, s', r)
    ensures WellFormed(s')
  {
    BranchConserves(s, id, s', r);
    BranchReachesTarget(s, id, s', r);
    UniquePermutes(s.All(), s'.All());
    ReachablePermutes(s.All(), s'.All());
    SameMembers(s.All(), s'.All());
    if r.Ok? {
      RootedTransfers(s.All(), s'.All(), s'.items, id);
    }
  }

  /** The result depends on the target alone: two transcripts of one tree agree after branching to one id. */
  lemma {:induction false} BranchForgetsOldLeaf(s: State, t: State, id: EntryId, s': State, t': State,
                                                r: Result<nat, BranchError>, q: Result<nat, BranchError>)
    requires WellFormed(s) && WellFormed(t) && multiset(s.All()) == multiset(t.All())
    requires Branches(s, id, s', r) && Branches(t, id, t', q) && r.Ok?
    ensures q.Ok? && s'.items == t'.items
  {
    SameMembers(s.All(), t.All());
    BranchReachesTarget(s, id, s', r);
    BranchReachesTarget(t, id, t', q);
    ChainTransfers(s.All(), t.All(), id);
    assert Entry(s.All(), id).value in t.All();
  }

  lemma {:induction false} BranchToLeaf(s: State, t: State, t': State, q: Result<nat, BranchError>)
    requires WellFormed(s) && s.items != [] && WellFormed(t) && multiset(s.All()) == multiset(t.All())
    requires Branches(t, Last(s.items).id, t', q)
    ensures q.Ok? && t'.items == s.items
  {
    var leaf := Last(s.items).id;
    SameMembers(s.All(), t.All());
    RootedTransfers(s.All(), t.All(), s.items, leaf);
    BranchReachesTarget(t, leaf, t', q);
    RootedUnique(t.All(), s.items, ChainTo(t.All(), leaf).value, leaf);
  }

  lemma {:induction false} SamePathSameArchive(s: State, t: State)
    requires multiset(s.All()) == multiset(t.All()) && s.items == t.items
    ensures multiset(s.archive) == multiset(t.archive)
  {
    assert multiset(s.All()) == multiset(s.items) + multiset(s.archive);
    assert multiset(t.All()) == multiset(t.items) + multiset(t.archive);
    assert multiset(s.archive) == multiset(s.All()) - multiset(s.items);
  }

  /** Leaving a branch and returning to its leaf restores the active path entry for entry. */
  lemma {:induction false} BranchThereAndBack(s: State, id: EntryId, s': State, s'': State,
                                              r: Result<nat, BranchError>, q: Result<nat, BranchError>)
    requires WellFormed(s) && s.items != []
    requires Branches(s, id, s', r) && Branches(s', Last(s.items).id, s'', q)
    ensures q.Ok? && s''.items == s.items && multiset(s''.archive) == multiset(s.archive)
  {
    BranchConserves(s, id, s', r);
    BranchKeepsWellFormed(s, id, s', r);
    BranchToLeaf(s, s', s'', q);
    BranchConserves(s', Last(s.items).id, s'', q);
    SamePathSameArchive(s, s'');
  }

  // ---------------------------------------------------------------- the returned count

  lemma {:induction false} TakeLeavesItems(s: State, id: EntryId)
    requires Take(s, id).Some?
    ensures var (item, rest) := Take(s, id).value; multiset(rest.items) == multiset(s.items) - multiset{item}
  {
    var (item, rest) := Take(s, id).value;
    match Find(s.items, id)
    case Some(k) => RemoveAtMultiset(s.items, k);
    case None => assert item !in multiset(s.items);
  }

  lemma {:induction false} TakeAllLeavesItems(s: State, ids: seq<EntryId>)
    requires TakeAll(s, ids).Some?
    ensures var (taken, rest) := TakeAll(s, ids).value; multiset(rest.items) == multiset(s.items) - multiset(taken)
    decreases |ids|
  {
    if ids == [] {
      assert multiset(s.items) - multiset([]) == multiset(s.items);
    } else {
      TakeAllLeavesItems(s, ids[..|ids| - 1]);
      var (taken, rest) := TakeAll(s, ids[..|ids| - 1]).value;
      TakeLeavesItems(rest, Last(ids));
      var (item, rest') := Take(rest, Last(ids)).value;
      assert multiset(taken + [item]) == multiset(taken) + multiset{item};
    }
  }

  lemma {:induction false} TruncationCounts(items: seq<Item>, n: nat)
    requires n <= |items|
    ensures |multiset(items) - multiset(items[..n])| == |items| - n
  {
    assert items == items[..n] + items[n..];
    assert multiset(items) - multiset(items[..n]) == multiset(items[n..]);
  }

  lemma {:induction false} RestoreCounts(s: State, c: seq<Item>, id: EntryId, s': State, r: Result<nat, BranchError>)
    requires Rooted(s.All(), c, id) && Restores(s, c, s', r)
    ensures s'.items == c && r == Ok(|multiset(s.items) - multiset(c)|)
  {
    TakeChain(s, c, id);
    TakeAllLeavesItems(s, Ids(c));
  }

  /** The count a successful branch returns is the number of entries that left the active path. */
  lemma {:induction false} BranchCountsAbandoned(s: State, id: EntryId, s': State, r: Result<nat, BranchError>)
    requires Branches(s, id, s', r) && r.Ok?
    ensures r.value == |multiset(s.items) - multiset(s'.items)|
  {
    match Find(s.items, id)
    case Some(p) => TruncationCounts(s.items, p + 1);
    case None => RestoreCounts(s, ChainTo(s.All(), id).value, id, s', r);
  }

  // ---------------------------------------------------------------- runs

  datatype Op = Push(item: Item) | Branch(id: EntryId)

  /** One operation. A pushed entry brings a fresh id; its parent field is overwritten by the push. */
  ghost predicate Step(s: State, op: Op, s': State) {
    match op
    case Push(item) => Fresh(s.All(), item.id) && s' == Pushed(s, item)
    case Branch(id) => exists r :: Branches(s, id, s', r)
  }

  ghost predicate Run(states: seq<State>, ops: seq<Op>) {
    && |states| == |ops| + 1
    && states[0] == State([], [])
    && forall k :: 0 <= k < |ops| ==> Step(states[k], ops[k], states[k + 1])
  }

  /** Where the active path ends. */
  function LeafOf(s: State): Option<EntryId> {
    if s.items == [] then None else Some(Last(s.items).id)
  }

  /** The entries given to a run's pushes, each under what was the leaf at that moment. */
  ghost function Created(states: seq<State>, ops: seq<Op>): multiset<Item>
    requires |states| == |ops| + 1
    decreases |ops|
  {
    if ops == [] then multiset{}
    else
      var n := |ops| - 1;
      var before := Created(states[..|ops|], ops[..n]);
      if ops[n].Push? then before + multiset{ops[n].item.(parent := LeafOf(states[n]))} else before
  }

  /** An entry without its place in the tree. */
  function Bare(item: Item): Item { item.(parent := None) }

  function Bares(items: seq<Item>): multiset<Item>
    decreases |items|
  {
    if items == [] then multiset{} else Bares(items[..|items| - 1]) + multiset{Bare(Last(items))}
  }

  /** The entries the pushes bring, told by the operations alone. */
  function Brought(ops: seq<Op>): multiset<Item>
    decreases |ops|
  {
    if ops == [] then multiset{}
    else Brought(ops[..|ops| - 1]) + (if Last(ops).Push? then multiset{Bare(Last(ops).item)} else multiset{})
  }

  lemma {:induction false} BaresAppend(items: seq<Item>, item: Item)
    ensures Bares(items + [item]) == Bares(items) + multiset{Bare(item)}
  {
    assert (items + [item])[..|items|] == items;
  }

  lemma {:induction false} BaresConcat(xs: seq<Item>, ys: seq<Item>)
    ensures Bares(xs + ys) == Bares(xs) + Bares(ys)
    decreases |ys|
  {
    if ys == [] {
      assert xs + ys == xs;
    } else {
      var front, last := ys[..|ys| - 1], ys[|ys| - 1];
      assert Bares(xs + front) == Bares(xs) + Bares(front) by { BaresConcat(xs, front); }
      assert Bares(xs + ys) == Bares(xs + front) + multiset{Bare(last)} by {
        SplitLast(xs, ys);
        BaresAppend(xs + front, last);
      }
    }
  }

  lemma {:induction false} BaresWithout(items: seq<Item>, k: nat)
    requires k < |items|
    ensures Bares(items) == Bares(RemoveAt(items, k)) + multiset{Bare(items[k])}
  {
    assert Bares(items[..k + 1]) == Bares(items[..k]) + multiset{Bare(items[k])} by {
      assert items[..k + 1] == items[..k] + [items[k]];
      BaresAppend(items[..k], items[k]);
    }
    assert items == items[..k + 1] + items[k + 1..];
    BaresConcat(items[..k + 1], items[k + 1..]);
    BaresConcat(items[..k], items[k + 1..]);
  }

  lemma {:induction false} SameRest(xs: seq<Item>, ys: seq<Item>, k: nat)
    requires xs != [] && multiset(xs) == multiset(ys) && k < |ys| && ys[k] == xs[|xs| - 1]
    ensures multiset(xs[..|xs| - 1]) == multiset(RemoveAt(ys, k))
  {
    var front, last := xs[..|xs| - 1], xs[|xs| - 1];
    assert xs == front + [last];
    assert multiset(front) == multiset(xs) - multiset{last};
    RemoveAtMultiset(ys, k);
    assert multiset(RemoveAt(ys, k)) == multiset(ys) - multiset{last};
  }

  lemma {:induction false} BaresPermute(xs: seq<Item>, ys: seq<Item>)
    requires multiset(xs) == multiset(ys)
    ensures Bares(xs) == Bares(ys)
    decreases |xs|
  {
    if xs == [] {
      assert |ys| == |multiset(ys)| == 0;
    } else {
      var front, last := xs[..|xs| - 1], xs[|xs| - 1];
      assert last in ys by {
        assert last in multiset(xs);
      }
      var k :| 0 <= k < |ys| && ys[k] == last;
      assert Bares(front) == Bares(RemoveAt(ys, k)) by {
        SameRest(xs, ys, k);
        BaresPermute(front, RemoveAt(ys, k));
      }
      BaresWithout(ys, k);
    }
  }

  lemma {:induction false} StepKeepsTree(s: State, op: Op, s': State)
    requires WellFormed(s) && Step(s, op, s')
    ensures WellFormed(s')
    ensures op.Push? ==> s'.items != [] && multiset(s'.All()) == multiset(s.All()) + multiset{Last(s'.items)}
    ensures op.Branch? ==> multiset(s'.All()) == multiset(s.All())
  {
    match op
    case Push(item) =>
      PushAdds(s, item);
      PushKeepsWellFormed(s, item);
    case Branch(id) =>
      var r :| Branches(s, id, s', r);
      BranchConserves(s, id, s', r);
      BranchKeepsWellFormed(s, id, s', r);
  }

  lemma {:induction false} PushPlaces(s: State, item: Item)
    ensures Last(Pushed(s, item).items) == item.(parent := LeafOf(s))
  {
  }

  /**
   Every run keeps a well-formed tree whose two vectors hold exactly the entries ever pushed, as they were given and
   each under the entry that was the leaf when it was pushed.
   */
  lemma {:induction false} RunKeepsTree(states: seq<State>, ops: seq<Op>)
    requires Run(states, ops)
    ensures WellFormed(Last(states))
    ensures multiset(Last(states).All()) == Created(states, ops)
    decreases |ops|
  {
    if ops != [] {
      var n := |ops| - 1;
      RunKeepsTree(states[..|ops|], ops[..n]);
      assert Last(states[..|ops|]) == states[n];
      StepKeepsTree(states[n], ops[n], states[n + 1]);
      if ops[n].Push? {
        PushPlaces(states[n], ops[n].item);
      }
    }
  }

  /** The same entries, in the order they were pushed. */
  ghost function CreatedList(states: seq<State>, ops: seq<Op>): seq<Item>
    requires |states| == |ops| + 1
    decreases |ops|
  {
    if ops == [] then []
    else
      var n := |ops| - 1;
      var before := CreatedList(states[..|ops|], ops[..n]);
      if ops[n].Push? then before + [ops[n].item.(parent := LeafOf(states[n]))] else before
  }

  lemma {:induction false} CreatedIsBrought(states: seq<State>, ops: seq<Op>)
    requires |states| == |ops| + 1
    ensures multiset(CreatedList(states, ops)) == Created(states, ops)
    ensures Bares(CreatedList(states, ops)) == Brought(ops)
    decreases |ops|
  {
    if ops != [] {
      var n := |ops| - 1;
      CreatedIsBrought(states[..|ops|], ops[..n]);
      if ops[n].Push? {
        BaresAppend(CreatedList(states[..|ops|], ops[..n]), ops[n].item.(parent := LeafOf(states[n])));
      }
    }
  }

  /** Parents aside, what a run holds in the end can be read off its pushes: branching leaves no trace in it. */
  lemma {:induction false} RunHoldsWhatWasPushed(states: seq<State>, ops: seq<Op>)
    requires Run(states, ops)
    ensures Bares(Last(states).All()) == Brought(ops)
  {
    RunKeepsTree(states, ops);
    CreatedIsBrought(states, ops);
    BaresPermute(Last(states).All(), CreatedList(states, ops));
  }

  /** Linking changes nothing exactly when no entry after the first lacks a parent. */
  lemma {:induction false} LinkIdentity(items: seq<Item>)
    ensures Link(items) == items <==> forall k :: 1 <= k < |items| ==> items[k].parent.Some?
  {
    if Link(items) == items {
      forall k | 1 <= k < |items| ensures items[k].parent.Some? {
        assert Link(items)[k] == items[k];
      }
    }
  }

  lemma {:induction false} RootedHasParents(all: seq<Item>, c: seq<Item>, id: EntryId, k: nat)
    requires Rooted(all, c, id) && 1 <= k < |c|
    ensures c[k].parent.Some?
  {
    RootedPrefix(all, c, id, k + 1);
    assert Last(c[..k + 1]) == c[k];
  }

  /** A stored transcript reloads as the one that was saved, for every transcript a run can reach. */
  lemma {:induction false} ReloadIsIdentity(states: seq<State>, ops: seq<Op>)
    requires Run(states, ops)
    ensures Link(Last(states).items) == Last(states).items
  {
    RunKeepsTree(states, ops);
    var s := Last(states);
    forall k | 1 <= k < |s.items| ensures s.items[k].parent.Some? {
      RootedHasParents(s.All(), s.items, Last(s.items).id, k);
    }
    LinkIdentity(s.items);
  }

  // ---------------------------------------------------------------- the program

  class AgentTranscript {
    var items: seq<Item>
    var archive: seq<Item>

    ghost function Value(): State
      reads this
    {
      State(items, archive)
    }

    /** A transcript read back from storage. */
    constructor FromParts(items: seq<Item>, archive: seq<Item>)
      ensures Value() == State(Link(items), archive)
    {
      this.items := items;
      this.archive := archive;
      new;
      LinkActivePath();
    }

    method LinkActivePath()
      modifies this`items
      ensures items == Link(old(items))
    {
      var index := 1;
      while index < |items|
        invariant |items| == |old(items)|
        invariant |items| > 0 ==> 1 <= index <= |items|
        invariant forall k :: 0 <= k < |items| ==>
                    items[k] == if k < index then Link(old(items))[k] else old(items)[k]
      {
        if items[index].parent.None? {
          items := items[index := items[index].(parent := Some(items[index - 1].id))];
        }
        index := index + 1;
      }
    }

    /** Follows parent links up from `id`, and gives the way back down; stops on any data. */
    method PathTo(id: EntryId) returns (r: Result<seq<EntryId>, BranchError>)
      ensures r.Ok? <==> ChainTo(items + archive, id).Some?
      ensures r.Ok? ==> r.value == Ids(ChainTo(items + archive, id).value)
      ensures r.Err? ==> r.error.BrokenChain? && r.error.entry == id && BrokenAt(items + archive, id, r.error.missing)
    {
      ghost var all := items + archive;
      ghost var taken: seq<Item> := [];
      var path: seq<EntryId> := [];
      var cursor := Some(id);
      while cursor.Some?
        invariant Walking(all, id, cursor, path, taken)
        decreases |all| - |path|, cursor.Some?
      {
        var current := cursor.value;
        var item := Entry(items + archive, current);
        if item.None? {
          r := Err(BrokenChain(id, current));
          BrokenMeansNoChain(all, id, current);
          return;
        }
        WalkOn(all, id, current, path, taken, item.value);
        cursor := item.value.parent;
        path := path + [current];
        taken := [item.value] + taken;
        if |path| > |items| + |archive| {
          r := Err(BrokenChain(id, id));
          BrokenMeansNoChain(all, id, id);
          return;
        }
      }
      RootedUnique(all, taken, ChainTo(all, id).value, id);
      r := Ok(Upward(path));
      assert r.value == Ids(taken);
    }

    /** Takes out the first entry with this id, looking on the active path first. */
    method TakeAnywhere(id: EntryId) returns (r: Option<Item>)
      modifies this
      ensures r.Some? <==> old(Entry(items + archive, id)).Some?
      ensures r.Some? ==> old(Take(Value(), id)) == Some((r.value, Value()))
      ensures r.None? ==> Value() == old(Value())
    {
      TakeOne(Value(), id);
      var index := Find(items, id);
      if index.Some? {
        r := Some(items[index.value]);
        items := RemoveAt(items, index.value);
        return;
      }
      index := Find(archive, id);
      if index.None? {
        return None;
      }
      r := Some(archive[index.value]);
      archive := RemoveAt(archive, index.value);
    }

    /** Removes the entries of a path one at a time; every one of them is found. */
    method TakePath(path: seq<EntryId>) returns (restored: seq<Item>)
      requires TakeAll(Value(), path).Some?
      modifies this
      ensures old(TakeAll(Value(), path)) == Some((restored, Value()))
    {
      restored := [];
      for k := 0 to |path|
        invariant old(TakeAll(Value(), path[..k])) == Some((restored, Value()))
      {
        TakeAllPrefix(old(Value()), path, k + 1);
        assert path[..k + 1][..k] == path[..k];
        TakeOne(Value(), path[k]);
        var taken := TakeAnywhere(path[k]);
        restored := restored + [taken.value];
      }
      assert path[..|path|] == path;
    }

    /** Branches: the active path will end at `id`. */
    method BranchFrom(id: EntryId) returns (r: Result<nat, BranchError>)
      modifies this
      ensures Branches(old(Value()), id, Value(), r)
    {
      var position := Find(items, id);
      if position.Some? {
        var abandoned := items[position.value + 1..];
        items := items[..position.value + 1];
        archive := archive + abandoned;
        return Ok(|abandoned|);
      }
      if Entry(archive, id).None? {
        return Err(UnknownEntry(id));
      }
      var walked := PathTo(id);
      if walked.Err? {
        return Err(walked.error);
      }
      ghost var c := ChainTo(items + archive, id).value;
      TakeChain(Value(), c, id);
      var restored := TakePath(walked.value);
      var count := |items|;
      archive := archive + items;
      items := restored;
      return Ok(count);
    }

    /** Makes an entry the new leaf. */
    method PushItem(item: Item)
      modifies this`items
      ensures Value() == Pushed(old(Value()), item)
    {
      var parent := if |items| == 0 then None else Some(items[|items| - 1].id);
      items := items + [item.(parent := parent)];
    }
  }

  lemma {:induction false} TakeAllPrefix(s: State, ids: seq<EntryId>, k: nat)
    requires k <= |ids| && TakeAll(s, ids).Some?
    ensures TakeAll(s, ids[..k]).Some?
    decreases |ids|
  {
    if k == |ids| {
      assert ids[..k] == ids;
    } else {
      TakeAllPrefix(s, ids[..|ids| - 1], k);
      assert ids[..|ids| - 1][..k] == ids[..k];
    }
  }
}
