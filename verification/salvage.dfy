/**
 Which entries of a transcript outlive its compaction, told by their positions in
 it: the newest user turns the budget allows, the newest delegation results, the
 summary, and the tail. Nothing here looks at how the engine picks them.
 */
module Salvage {
  import opened Base
  import opened Entries
  import opened Compaction

  /** The two sorts of entries that are salvaged. */
  datatype Sort = Turn | DelegatedResult

  predicate Is(item: Item, sort: Sort) {
    match sort
    case Turn => item.kind.UserTurn?
    case DelegatedResult => item.kind.DelegationResult?
  }

  /** How many entries are of the sort. */
  function Count(items: seq<Item>, sort: Sort): nat
    decreases |items|
  {
    if items == [] then 0 else Count(items[..|items| - 1], sort) + (if Is(items[|items| - 1], sort) then 1 else 0)
  }

  function Least(a: nat, b: nat): nat {
    if a < b then a else b
  }

  ghost predicate Rises(from: seq<nat>) {
    forall p, q :: 0 <= p < q < |from| ==> from[p] < from[q]
  }

  ghost predicate Within(from: seq<nat>, items: seq<Item>) {
    forall p :: 0 <= p < |from| ==> from[p] < |items|
  }

  /** The entries at the given positions. */
  function Picked(items: seq<Item>, from: seq<nat>): (r: seq<Item>)
    requires Within(from, items)
    ensures |r| == |from| && forall p :: 0 <= p < |r| ==> r[p] == items[from[p]]
  {
    seq(|from|, p requires 0 <= p < |from| => items[from[p]])
  }

  /** From position `at` on, `after` has the entries at `from`, all of one sort, in their original order. */
  ghost predicate Copies(after: seq<Item>, at: nat, items: seq<Item>, from: seq<nat>, sort: Sort) {
    && at + |from| <= |after| && Rises(from) && Within(from, items)
    && forall p :: 0 <= p < |from| ==> Is(items[from[p]], sort) && Verbatim(after[at + p], items[from[p]])
  }

  /** What an entry costs: the tokens of its message, if it has one. */
  function Tokens(item: Item, t: Reading): nat {
    match item.message
    case Some(text) => t.tokens(text)
    case None => t.tokens("")
  }

  function TokensOf(items: seq<Item>, t: Reading): nat
    decreases |items|
  {
    if items == [] then 0 else TokensOf(items[..|items| - 1], t) + Tokens(items[|items| - 1], t)
  }

  lemma {:induction false} CostIsTokens(items: seq<Item>, t: Reading)
    ensures Cost(items, t) == TokensOf(items, t)
    decreases |items|
  {
    if items != [] {
      CostIsTokens(items[..|items| - 1], t);
    }
  }

  /** The newest turns without a gap: as many as the budget allows, and the very newest whatever it costs. */
  ghost predicate TurnsKept(items: seq<Item>, from: seq<nat>, budget: nat, t: Reading)
    requires Within(from, items)
  {
    var spent := TokensOf(Picked(items, from), t);
    && (from == [] ==> forall i :: 0 <= i < |items| ==> !Is(items[i], Turn))
    && (from != [] ==> forall i :: from[0] <= i < |items| && Is(items[i], Turn) ==> i in from)
    && (spent <= budget || |from| == 1)
    && (from != [] ==> forall i: nat :: NextOlder(items, i, from[0]) ==>
                         spent >= budget || spent + Tokens(items[i], t) > budget)
  }

  /** `i` is the newest turn before `first`. */
  ghost predicate NextOlder(items: seq<Item>, i: nat, first: nat)
    requires first < |items|
  {
    i < first && Is(items[i], Turn) && forall k :: i < k < first ==> !Is(items[k], Turn)
  }

  /** Fewer than `limit` results come after position `i`. */
  ghost predicate Recent(items: seq<Item>, i: nat, limit: nat) {
    i < |items| && Is(items[i], DelegatedResult) && Count(items[i + 1..], DelegatedResult) < limit
  }

  /** Exactly the results with fewer than `limit` after them; of entries equal in every field one is enough. */
  ghost predicate ResultsKept(items: seq<Item>, from: seq<nat>, limit: nat)
    requires Within(from, items)
  {
    && (forall p :: 0 <= p < |from| ==> Recent(items, from[p], limit))
    && (forall i: nat :: Recent(items, i, limit) ==> items[i] in Picked(items, from))
  }

  /** From position `at` on, `after` is what `items` is from position `n` on. */
  ghost predicate Unchanged(after: seq<Item>, at: nat, items: seq<Item>, n: nat) {
    && at <= |after| && n <= |items| && |after| - at == |items| - n
    && forall k :: n <= k < |items| ==> Verbatim(after[at + k - n], items[k])
  }

  /** A fresh entry that holds the summary and shows it rendered. */
  ghost predicate SummaryStands(item: Item, id: EntryId, summary: Summary, t: Reading) {
    && item.id == id && item.kind == CompactionSummary(summary)
    && item.message == Some(t.render(summary)) && item.details.None?
  }

  /** The whole outcome: salvaged turns, salvaged results, the summary, the tail. */
  ghost predicate Selected(o: Outcome, items: seq<Item>, settings: Settings, id: EntryId, t: Reading,
                           turns: seq<nat>, results: seq<nat>)
  {
    && o.replacedItems <= |items| && o.replacedItems + o.preservedItems == |items|
    && var prefix, a, b := items[..o.replacedItems], |turns|, |turns| + |results|;
       && |o.items| == b + 1 + o.preservedItems
       && Copies(o.items, 0, prefix, turns, Turn) && TurnsKept(prefix, turns, settings.userTokens, t)
       && Copies(o.items, a, prefix, results, DelegatedResult)
       && ResultsKept(prefix, results, settings.delegationResults)
       && SummaryStands(o.items[b], id, o.summary, t)
       && Unchanged(o.items, b + 1, items, o.replacedItems)
       && o.preservedUserTurns == |turns|
  }

  // ---------------------------------------------------------------- positions

  /** The positions of the entries of a sort, in order. */
  function Places(items: seq<Item>, sort: Sort): (r: seq<nat>)
    ensures Within(r, items)
    decreases |items|
  {
    if items == [] then []
    else Places(items[..|items| - 1], sort) + (if Is(items[|items| - 1], sort) then [|items| - 1] else [])
  }

  lemma {:induction false} PlacesAppend(items: seq<Item>, item: Item, sort: Sort)
    ensures Places(items + [item], sort) == Places(items, sort) + (if Is(item, sort) then [|items|] else [])
    ensures Count(items + [item], sort) == Count(items, sort) + (if Is(item, sort) then 1 else 0)
  {
    assert (items + [item])[..|items|] == items;
  }

  lemma {:induction false} RisesOneMore(from: seq<nat>, at: nat)
    requires Rises(from) && forall p :: 0 <= p < |from| ==> from[p] < at
    ensures Rises(from + [at])
  {
  }

  lemma {:induction false} PlacesRise(items: seq<Item>, sort: Sort)
    ensures Rises(Places(items, sort))
    decreases |items|
  {
    if items != [] {
      var front := items[..|items| - 1];
      PlacesRise(front, sort);
      if Is(items[|items| - 1], sort) {
        RisesOneMore(Places(front, sort), |front|);
      }
    }
  }

  lemma {:induction false} PlaceIs(items: seq<Item>, sort: Sort, p: nat)
    requires p < |Places(items, sort)|
    ensures Is(items[Places(items, sort)[p]], sort)
    decreases |items|
  {
    var front := items[..|items| - 1];
    if p < |Places(front, sort)| {
      PlaceIs(front, sort, p);
    }
  }

  lemma {:induction false} PlacesCount(items: seq<Item>, sort: Sort)
    ensures |Places(items, sort)| == Count(items, sort)
    decreases |items|
  {
    if items != [] {
      PlacesCount(items[..|items| - 1], sort);
    }
  }

  lemma {:induction false} PlacesFind(items: seq<Item>, sort: Sort, i: nat)
    requires i < |items| && Is(items[i], sort)
    ensures i in Places(items, sort)
    decreases |items|
  {
    if i < |items| - 1 {
      PlacesFind(items[..|items| - 1], sort, i);
    }
  }

  lemma {:induction false} CountAfter(items: seq<Item>, sort: Sort, k: nat)
    requires k < |Places(items, sort)|
    ensures Count(items[Places(items, sort)[k] + 1..], sort) == |Places(items, sort)| - 1 - k
    decreases |items|
  {
    var front, item := items[..|items| - 1], items[|items| - 1];
    var before := Places(front, sort);
    assert Places(items, sort) == before + (if Is(item, sort) then [|front|] else []);
    if k < |before| {
      assert Places(items, sort)[k] == before[k];
      assert Count(front[before[k] + 1..], sort) == |before| - 1 - k by { CountAfter(front, sort, k); }
      CountOneMore(items, sort, before[k] + 1);
    } else {
      assert Places(items, sort)[k] == |front| && items[|front| + 1..] == [];
    }
  }

  lemma {:induction false} CountOneMore(items: seq<Item>, sort: Sort, at: nat)
    requires at < |items|
    ensures var front, item := items[..|items| - 1], items[|items| - 1];
            Count(items[at..], sort) == Count(front[at..], sort) + (if Is(item, sort) then 1 else 0)
  {
    var front, item := items[..|items| - 1], items[|items| - 1];
    assert items[at..] == front[at..] + [item];
    PlacesAppend(front[at..], item, sort);
  }

  lemma {:induction false} PickedAppend(items: seq<Item>, from: seq<nat>, at: nat)
    requires Within(from, items) && at < |items|
    ensures Within(from + [at], items) && Picked(items, from + [at]) == Picked(items, from) + [items[at]]
  {
  }

  lemma {:induction false} PickedFurther(items: seq<Item>, item: Item, from: seq<nat>)
    requires Within(from, items)
    ensures Within(from, items + [item]) && Picked(items + [item], from) == Picked(items, from)
  {
  }

  lemma {:induction false} TurnsArePicked(items: seq<Item>)
    ensures UserTurns(items) == Picked(items, Places(items, Turn))
    decreases |items|
  {
    if items != [] {
      var front, item := items[..|items| - 1], items[|items| - 1];
      assert items == front + [item];
      TurnsArePicked(front);
      PickedFurther(front, item, Places(front, Turn));
      if Is(item, Turn) {
        PickedAppend(items, Places(front, Turn), |front|);
      }
    }
  }

  lemma {:induction false} ResultsArePicked(items: seq<Item>)
    ensures DelegationResults(items) == Picked(items, Places(items, DelegatedResult))
    decreases |items|
  {
    if items != [] {
      var front, item := items[..|items| - 1], items[|items| - 1];
      assert items == front + [item];
      ResultsArePicked(front);
      PickedFurther(front, item, Places(front, DelegatedResult));
      if Is(item, DelegatedResult) {
        PickedAppend(items, Places(front, DelegatedResult), |front|);
      }
    }
  }

  /** The last `n` positions, and those before. */
  function Newest(from: seq<nat>, n: nat): seq<nat>
    requires n <= |from|
  {
    from[|from| - n..]
  }

  function Older(from: seq<nat>, n: nat): seq<nat>
    requires n <= |from|
  {
    from[..|from| - n]
  }

  lemma {:induction false} NewestWithin(items: seq<Item>, from: seq<nat>, n: nat)
    requires Within(from, items) && n <= |from|
    ensures Older(from, n) + Newest(from, n) == from && |Newest(from, n)| == n
    ensures Within(Older(from, n), items) && Within(Newest(from, n), items)
  {
  }

  lemma {:induction false} RisesNewest(from: seq<nat>, n: nat)
    requires Rises(from) && n <= |from|
    ensures Rises(Newest(from, n))
  {
  }

  lemma {:induction false} PickedConcat(items: seq<Item>, a: seq<nat>, b: seq<nat>)
    requires Within(a, items) && Within(b, items)
    ensures Within(a + b, items) && Picked(items, a + b) == Picked(items, a) + Picked(items, b)
  {
  }

  /** `places` are the positions of the entries of a sort. */
  ghost predicate Lists(places: seq<nat>, items: seq<Item>, sort: Sort) {
    && Rises(places) && Within(places, items)
    && (forall p :: 0 <= p < |places| ==> Is(items[places[p]], sort))
    && (forall i :: 0 <= i < |items| && Is(items[i], sort) ==> i in places)
  }

  lemma {:induction false} PlacesList(items: seq<Item>, sort: Sort)
    ensures Lists(Places(items, sort), items, sort)
  {
    var places := Places(items, sort);
    PlacesRise(items, sort);
    forall p | 0 <= p < |places| ensures Is(items[places[p]], sort) {
      PlaceIs(items, sort, p);
    }
    forall i | 0 <= i < |items| && Is(items[i], sort) ensures i in places {
      PlacesFind(items, sort, i);
    }
  }

  // ---------------------------------------------------------------- the turns

  lemma {:induction false} CostPrepend(item: Item, items: seq<Item>, t: Reading)
    ensures Cost([item] + items, t) == t.tokens(TextOf(item)) + Cost(items, t)
    decreases |items|
  {
    if items == [] {
      assert [item] + items == [] + [item];
      CostAppend([], item, t);
    } else {
      CostPrepend(item, items[..|items| - 1], t);
      assert ([item] + items)[..|items|] == [item] + items[..|items| - 1];
    }
  }

  /** `kept` is empty only if nothing is left out, keeps to the budget unless it is one turn, and no more would do. */
  ghost predicate Affords(older: seq<Item>, kept: seq<Item>, budget: nat, t: Reading) {
    && (kept == [] ==> older == [])
    && (Cost(kept, t) <= budget || |kept| == 1)
    && (older != [] ==>
          Cost(kept, t) >= budget || Cost(kept, t) + t.tokens(TextOf(older[|older| - 1])) > budget)
  }

  lemma {:induction false} FitsAffords(older: seq<Item>, kept: seq<Item>, budget: nat, t: Reading)
    requires Fits(kept, older + kept, budget, true, t)
    ensures Affords(older, kept, budget, t)
  {
    if older != [] {
      var turns, k := older + kept, |older| - 1;
      assert Cost(turns[k..], t) == t.tokens(TextOf(older[k])) + Cost(kept, t) by {
        assert turns[k..] == [older[k]] + kept;
        CostPrepend(older[k], kept, t);
      }
    }
  }

  lemma {:induction false} OlderAreBefore(a: seq<nat>, b: seq<nat>, p: nat)
    requires Rises(a + b) && p < |a| && b != []
    ensures a[p] < b[0] && a[p] <= a[|a| - 1] < b[0]
  {
    var all := a + b;
    assert all[p] == a[p] && all[|a|] == b[0] && all[|a| - 1] == a[|a| - 1];
  }

  lemma {:induction false} NewestComeLater(a: seq<nat>, b: seq<nat>, q: nat)
    requires Rises(a + b) && q < |b|
    ensures b[0] <= b[q]
  {
    assert (a + b)[|a|] == b[0] && (a + b)[|a| + q] == b[q];
  }

  lemma {:induction false} LaterIsNewest(a: seq<nat>, b: seq<nat>, i: nat)
    requires Rises(a + b) && b != [] && i in a + b && i >= b[0]
    ensures i in b
  {
    if i in a {
      var p :| 0 <= p < |a| && a[p] == i;
      OlderAreBefore(a, b, p);
    }
  }

  lemma {:induction false} OlderIsNext(items: seq<Item>, a: seq<nat>, b: seq<nat>, i: nat)
    requires Lists(a + b, items, Turn) && b != [] && b[0] < |items| && NextOlder(items, i, b[0])
    ensures a != [] && a[|a| - 1] == i
  {
    var all := a + b;
    assert i in all;
    forall q | 0 <= q < |b| ensures b[q] != i {
      NewestComeLater(a, b, q);
    }
    var p :| 0 <= p < |a| && a[p] == i;
    OlderAreBefore(a, b, p);
    assert Is(items[all[|a| - 1]], Turn);
  }

  lemma {:induction false} NewestTurnsKept(items: seq<Item>, a: seq<nat>, b: seq<nat>, budget: nat, t: Reading)
    requires Lists(a + b, items, Turn) && Within(a, items) && Within(b, items)
    requires Affords(Picked(items, a), Picked(items, b), budget, t)
    ensures TurnsKept(items, b, budget, t)
  {
    var spent := TokensOf(Picked(items, b), t);
    CostIsTokens(Picked(items, b), t);
    if b == [] {
      assert a + b == [];
    } else {
      forall i | b[0] <= i < |items| && Is(items[i], Turn) ensures i in b {
        LaterIsNewest(a, b, i);
      }
      forall i: nat | NextOlder(items, i, b[0])
        ensures spent >= budget || spent + Tokens(items[i], t) > budget
      {
        OlderIsNext(items, a, b, i);
      }
    }
  }

  /** The turns the engine keeps, by position. */
  lemma {:induction false} KeptTurnsAre(items: seq<Item>, budget: nat, t: Reading)
    ensures var kept, places := KeptTurns(items, budget, true, t), Places(items, Turn);
            && |kept| <= |places|
            && Within(Newest(places, |kept|), items)
            && kept == Picked(items, Newest(places, |kept|))
            && TurnsKept(items, Newest(places, |kept|), budget, t)
  {
    var kept, places := KeptTurns(items, budget, true, t), Places(items, Turn);
    assert Fits(kept, Picked(items, places), budget, true, t) by {
      TurnsArePicked(items);
      KeptTurnsFit(items, budget, true, t);
    }
    PlacesList(items, Turn);
    KeptAre(items, places, kept, budget, t);
  }

  lemma {:induction false} KeptAre(items: seq<Item>, places: seq<nat>, kept: seq<Item>, budget: nat, t: Reading)
    requires Lists(places, items, Turn) && Fits(kept, Picked(items, places), budget, true, t)
    ensures |kept| <= |places| && Within(Newest(places, |kept|), items)
    ensures kept == Picked(items, Newest(places, |kept|))
    ensures TurnsKept(items, Newest(places, |kept|), budget, t)
  {
    KeptSplit(items, places, kept, budget, t);
    NewestTurnsKept(items, Older(places, |kept|), Newest(places, |kept|), budget, t);
  }

  lemma {:induction false} KeptSplit(items: seq<Item>, places: seq<nat>, kept: seq<Item>, budget: nat, t: Reading)
    requires Within(places, items) && Fits(kept, Picked(items, places), budget, true, t)
    ensures |kept| <= |places|
    ensures var a, b := Older(places, |kept|), Newest(places, |kept|);
            && a + b == places && Within(a, items) && Within(b, items)
            && kept == Picked(items, b) && Affords(Picked(items, a), Picked(items, b), budget, t)
  {
    var a, b := Older(places, |kept|), Newest(places, |kept|);
    NewestWithin(items, places, |kept|);
    PickedConcat(items, a, b);
    SuffixIs(kept, Picked(items, a), Picked(items, b));
    FitsAffords(Picked(items, a), kept, budget, t);
  }

  lemma {:induction false} SuffixIs(kept: seq<Item>, older: seq<Item>, newer: seq<Item>)
    requires Suffix(kept, older + newer) && |kept| == |newer|
    ensures kept == newer
  {
  }

  // ---------------------------------------------------------------- the results

  /** Of positions with equal entries, the first. */
  function Firsts(items: seq<Item>, from: seq<nat>): (r: seq<nat>)
    requires Within(from, items)
    ensures Within(r, items) && forall p :: 0 <= p < |r| ==> r[p] in from
    decreases |from|
  {
    if from == [] then []
    else
      var before, at := Firsts(items, from[..|from| - 1]), from[|from| - 1];
      if items[at] in Picked(items, before) then before else before + [at]
  }

  lemma {:induction false} FirstsRise(items: seq<Item>, from: seq<nat>)
    requires Within(from, items) && Rises(from)
    ensures Rises(Firsts(items, from))
    decreases |from|
  {
    if from != [] {
      var front, at := from[..|from| - 1], from[|from| - 1];
      FirstsRise(items, front);
      assert forall p :: 0 <= p < |front| ==> front[p] < at;
    }
  }

  lemma {:induction false} FirstsCover(items: seq<Item>, from: seq<nat>, p: nat)
    requires Within(from, items) && p < |from|
    ensures items[from[p]] in Picked(items, Firsts(items, from))
    decreases |from|
  {
    var front, at := from[..|from| - 1], from[|from| - 1];
    var before := Firsts(items, front);
    if p < |front| {
      FirstsCover(items, front, p);
    }
    if items[at] !in Picked(items, before) {
      PickedAppend(items, before, at);
    }
  }

  lemma {:induction false} AppendsFirsts(into: seq<Item>, items: seq<Item>, from: seq<nat>)
    requires Within(from, items) && forall e :: e in into ==> Is(e, Turn)
    requires forall p :: 0 <= p < |from| ==> Is(items[from[p]], DelegatedResult)
    ensures AppendNew(into, Picked(items, from)) == into + Picked(items, Firsts(items, from))
    decreases |from|
  {
    if from == [] {
      assert into + Picked(items, []) == into;
    } else {
      var front, at := from[..|from| - 1], from[|from| - 1];
      var more, before := Picked(items, from), Picked(items, Firsts(items, front));
      assert AppendNew(into, Picked(items, front)) == into + before by { AppendsFirsts(into, items, front); }
      assert more[..|more| - 1] == Picked(items, front) && more[|more| - 1] == items[at];
      assert items[at] in into + before <==> items[at] in before;
      if items[at] !in before {
        PickedAppend(items, Firsts(items, front), at);
        Regroup(into, before, [items[at]]);
      }
    }
  }

  lemma {:induction false} NewestIsRecent(items: seq<Item>, limit: nat, p: nat)
    requires p < Least(limit, |Places(items, DelegatedResult)|)
    ensures var places := Places(items, DelegatedResult);
            Recent(items, Newest(places, Least(limit, |places|))[p], limit)
  {
    var places := Places(items, DelegatedResult);
    var k := |places| - Least(limit, |places|) + p;
    assert Newest(places, Least(limit, |places|))[p] == places[k];
    PlaceIs(items, DelegatedResult, k);
    CountAfter(items, DelegatedResult, k);
  }

  lemma {:induction false} RecentIsNewest(items: seq<Item>, limit: nat, at: nat)
    requires Recent(items, at, limit)
    ensures var places := Places(items, DelegatedResult); at in Newest(places, Least(limit, |places|))
  {
    var places := Places(items, DelegatedResult);
    PlacesFind(items, DelegatedResult, at);
    var k :| 0 <= k < |places| && places[k] == at;
    CountAfter(items, DelegatedResult, k);
    LateIsNewest(places, Least(limit, |places|), k);
  }

  lemma {:induction false} LateIsNewest(from: seq<nat>, n: nat, k: nat)
    requires n <= |from| && |from| - n <= k < |from|
    ensures from[k] in Newest(from, n)
  {
    assert Newest(from, n)[k - (|from| - n)] == from[k];
  }

  lemma {:induction false} NewestResultsKept(items: seq<Item>, limit: nat)
    ensures var places := Places(items, DelegatedResult);
            var from := Firsts(items, Newest(places, Least(limit, |places|)));
            Rises(from) && ResultsKept(items, from, limit)
  {
    var places := Places(items, DelegatedResult);
    var newest := Newest(places, Least(limit, |places|));
    var from := Firsts(items, newest);
    NewestAre(items, DelegatedResult, |newest|);
    FirstsRise(items, newest);
    forall p | 0 <= p < |from| ensures Recent(items, from[p], limit) {
      assert from[p] in newest;
      var q :| 0 <= q < |newest| && newest[q] == from[p];
      NewestIsRecent(items, limit, q);
    }
    forall i: nat | Recent(items, i, limit) ensures items[i] in Picked(items, from) {
      RecentIsNewest(items, limit, i);
      var p :| 0 <= p < |newest| && newest[p] == i;
      FirstsCover(items, newest, p);
    }
  }

  ghost function TurnPlaces(items: seq<Item>, settings: Settings, t: Reading): (r: seq<nat>)
    ensures Within(r, items)
  {
    var kept := KeptTurns(items, settings.userTokens, true, t);
    KeptTurnsAre(items, settings.userTokens, t);
    Newest(Places(items, Turn), |kept|)
  }

  ghost function ResultPlaces(items: seq<Item>, settings: Settings): (r: seq<nat>)
    ensures Within(r, items)
  {
    var places := Places(items, DelegatedResult);
    Firsts(items, Newest(places, Least(settings.delegationResults, |places|)))
  }

  lemma {:induction false} LastAreNewest(items: seq<Item>, limit: nat)
    ensures var places := Places(items, DelegatedResult);
            var newest := Newest(places, Least(limit, |places|));
            Within(newest, items) && LastOf(DelegationResults(items), limit) == Picked(items, newest)
  {
    var places := Places(items, DelegatedResult);
    var n := Least(limit, |places|);
    assert DelegationResults(items) == Picked(items, places) by { ResultsArePicked(items); }
    NewestWithin(items, places, n);
    PickedConcat(items, Older(places, n), Newest(places, n));
    LastOfConcat(Picked(items, Older(places, n)), Picked(items, Newest(places, n)), limit);
  }

  lemma {:induction false} LastOfConcat(older: seq<Item>, newer: seq<Item>, n: nat)
    requires |newer| == Least(n, |older + newer|)
    ensures LastOf(older + newer, n) == newer
  {
  }

  /** The newest of the listed entries are of the sort. */
  lemma {:induction false} NewestAre(items: seq<Item>, sort: Sort, n: nat)
    requires n <= |Places(items, sort)|
    ensures var newest := Newest(Places(items, sort), n);
            Within(newest, items) && Rises(newest) && forall p :: 0 <= p < |newest| ==> Is(items[newest[p]], sort)
  {
    var places := Places(items, sort);
    var newest := Newest(places, n);
    NewestWithin(items, places, n);
    PlacesRise(items, sort);
    RisesNewest(places, n);
    forall p | 0 <= p < |newest| ensures Is(items[newest[p]], sort) {
      NewestIs(items, sort, n, p);
    }
  }

  lemma {:induction false} NewestIs(items: seq<Item>, sort: Sort, n: nat, p: nat)
    requires p < n <= |Places(items, sort)|
    ensures Newest(Places(items, sort), n)[p] < |items| && Is(items[Newest(Places(items, sort), n)[p]], sort)
  {
    PlaceIs(items, sort, |Places(items, sort)| - n + p);
  }

  /** What the engine salvages, by position. */
  lemma {:induction false} SalvagedAre(items: seq<Item>, settings: Settings, t: Reading)
    ensures Salvaged(items, settings, t) ==
            Picked(items, TurnPlaces(items, settings, t)) + Picked(items, ResultPlaces(items, settings))
    ensures |LastOf(DelegationResults(items), settings.delegationResults)|
         == Least(settings.delegationResults, Count(items, DelegatedResult))
  {
    var kept, places := KeptTurns(items, settings.userTokens, true, t), Places(items, DelegatedResult);
    var newest := Newest(places, Least(settings.delegationResults, |places|));
    assert kept == Picked(items, TurnPlaces(items, settings, t)) by { KeptTurnsAre(items, settings.userTokens, t); }
    assert LastOf(DelegationResults(items), settings.delegationResults) == Picked(items, newest) by {
      LastAreNewest(items, settings.delegationResults);
    }
    PlacesCount(items, DelegatedResult);
    assert forall e :: e in kept ==> Is(e, Turn) by { KeptWithin(items, settings, t); }
    NewestAre(items, DelegatedResult, |newest|);
    AppendsFirsts(kept, items, newest);
  }

  // ---------------------------------------------------------------- the outcome

  /** `after` is `xs`, `ys`, the summary and `tail`, copied. */
  ghost predicate InParts(after: seq<Item>, xs: seq<Item>, ys: seq<Item>, summary: Item, tail: seq<Item>) {
    CopiedAround(after, xs + ys + tail, |xs| + |ys|, summary)
  }

  lemma {:induction false} SalvagedInParts(after: seq<Item>, salvaged: seq<Item>, xs: seq<Item>, ys: seq<Item>,
                                           summary: Item, tail: seq<Item>)
    requires CopiedAround(after, salvaged + tail, |salvaged|, summary) && salvaged == xs + ys
    ensures InParts(after, xs, ys, summary, tail)
  {
  }

  lemma {:induction false} PartsAt(after: seq<Item>, xs: seq<Item>, ys: seq<Item>, summary: Item, tail: seq<Item>,
                                   k: nat)
    requires InParts(after, xs, ys, summary, tail) && k < |after|
    ensures |after| == |xs| + |ys| + 1 + |tail|
    ensures Verbatim(after[k], if k < |xs| then xs[k]
                               else if k < |xs| + |ys| then ys[k - |xs|]
                               else if k == |xs| + |ys| then summary
                               else tail[k - |xs| - |ys| - 1])
  {
    var all, n := xs + ys + tail, |xs| + |ys|;
    if k < n {
      assert CopiedAt(after, all, n, k);
    } else if k > n {
      assert CopiedAt(after, all, n, k - 1);
    }
  }

  lemma {:induction false} PartIsCopied(after: seq<Item>, at: nat, items: seq<Item>, from: seq<nat>, sort: Sort)
    requires at + |from| <= |after| && Rises(from) && Within(from, items)
    requires forall p :: 0 <= p < |from| ==> Is(items[from[p]], sort)
    requires forall p :: 0 <= p < |from| ==> Verbatim(after[at + p], items[from[p]])
    ensures Copies(after, at, items, from, sort)
  {
  }

  lemma {:induction false} TurnsCopied(after: seq<Item>, prefix: seq<Item>, turns: seq<nat>, ys: seq<Item>,
                                       summary: Item, tail: seq<Item>)
    requires Within(turns, prefix) && Rises(turns)
    requires forall p :: 0 <= p < |turns| ==> Is(prefix[turns[p]], Turn)
    requires InParts(after, Picked(prefix, turns), ys, summary, tail)
    ensures Copies(after, 0, prefix, turns, Turn)
  {
    forall p | 0 <= p < |turns| ensures Verbatim(after[0 + p], prefix[turns[p]]) {
      PartsAt(after, Picked(prefix, turns), ys, summary, tail, p);
    }
    PartIsCopied(after, 0, prefix, turns, Turn);
  }

  lemma {:induction false} ResultsCopied(after: seq<Item>, prefix: seq<Item>, xs: seq<Item>, results: seq<nat>,
                                         summary: Item, tail: seq<Item>)
    requires Within(results, prefix) && Rises(results)
    requires forall p :: 0 <= p < |results| ==> Is(prefix[results[p]], DelegatedResult)
    requires InParts(after, xs, Picked(prefix, results), summary, tail)
    ensures Copies(after, |xs|, prefix, results, DelegatedResult)
  {
    forall p | 0 <= p < |results| ensures Verbatim(after[|xs| + p], prefix[results[p]]) {
      PartsAt(after, xs, Picked(prefix, results), summary, tail, |xs| + p);
    }
    PartIsCopied(after, |xs|, prefix, results, DelegatedResult);
  }

  lemma {:induction false} TailCopied(after: seq<Item>, xs: seq<Item>, ys: seq<Item>, summary: Item, items: seq<Item>,
                                      n: nat)
    requires n <= |items| && InParts(after, xs, ys, summary, items[n..])
    ensures Unchanged(after, |xs| + |ys| + 1, items, n)
  {
    var at := |xs| + |ys| + 1;
    forall k | n <= k < |items| ensures Verbatim(after[at + k - n], items[k]) {
      PartsAt(after, xs, ys, summary, items[n..], at + k - n);
      assert items[n..][k - n] == items[k];
    }
  }

  lemma {:induction false} OutcomeSelected(o: Outcome, items: seq<Item>, prefix: seq<Item>, settings: Settings,
                                           id: EntryId, t: Reading, turns: seq<nat>, results: seq<nat>)
    requires o.replacedItems <= |items| && o.replacedItems + o.preservedItems == |items|
    requires prefix == items[..o.replacedItems] && o.preservedUserTurns == |turns|
    requires Within(turns, prefix) && Rises(turns) && TurnsKept(prefix, turns, settings.userTokens, t)
    requires forall p :: 0 <= p < |turns| ==> Is(prefix[turns[p]], Turn)
    requires Within(results, prefix) && Rises(results) && ResultsKept(prefix, results, settings.delegationResults)
    requires InParts(o.items, Picked(prefix, turns), Picked(prefix, results), SummaryItem(id, o.summary, t),
                     items[o.replacedItems..])
    ensures Selected(o, items, settings, id, t, turns, results)
  {
    var xs, ys, summary := Picked(prefix, turns), Picked(prefix, results), SummaryItem(id, o.summary, t);
    var tail, b := items[o.replacedItems..], |turns| + |results|;
    assert Copies(o.items, 0, prefix, turns, Turn) by { TurnsCopied(o.items, prefix, turns, ys, summary, tail); }
    assert Copies(o.items, |turns|, prefix, results, DelegatedResult) by {
      KeptAreResults(prefix, results, settings.delegationResults);
      ResultsCopied(o.items, prefix, xs, results, summary, tail);
    }
    assert |o.items| == b + 1 + |tail| && SummaryStands(o.items[b], id, o.summary, t) by {
      PartsAt(o.items, xs, ys, summary, tail, b);
    }
    assert Unchanged(o.items, b + 1, items, o.replacedItems) by {
      TailCopied(o.items, xs, ys, summary, items, o.replacedItems);
    }
  }

  lemma {:induction false} KeptAreResults(items: seq<Item>, from: seq<nat>, limit: nat)
    requires Within(from, items) && ResultsKept(items, from, limit)
    ensures forall p :: 0 <= p < |from| ==> Is(items[from[p]], DelegatedResult)
  {
    assert forall p :: 0 <= p < |from| ==> Recent(items, from[p], limit);
  }

  lemma {:induction false} TurnsSelected(items: seq<Item>, settings: Settings, t: Reading)
    ensures var turns := TurnPlaces(items, settings, t);
            && Rises(turns) && TurnsKept(items, turns, settings.userTokens, t)
            && |turns| == |KeptTurns(items, settings.userTokens, true, t)|
            && forall p :: 0 <= p < |turns| ==> Is(items[turns[p]], Turn)
  {
    KeptTurnsAre(items, settings.userTokens, t);
    NewestAre(items, Turn, |KeptTurns(items, settings.userTokens, true, t)|);
  }

  /** The parts of an outcome, as the engine puts them together. */
  ghost predicate Ends(o: Outcome, items: seq<Item>, settings: Settings, id: EntryId, t: Reading) {
    && o.replacedItems <= |items| && o.replacedItems + o.preservedItems == |items|
    && var prefix := items[..o.replacedItems];
       && CopiedAround(o.items, Salvaged(prefix, settings, t) + items[o.replacedItems..],
                       |Salvaged(prefix, settings, t)|, SummaryItem(id, o.summary, t))
       && o.preservedUserTurns == |KeptTurns(prefix, settings.userTokens, true, t)|
       && o.preservedDelegationResults == |LastOf(DelegationResults(prefix), settings.delegationResults)|
  }

  lemma {:induction false} CompactionEnds(items: seq<Item>, settings: Settings, id: EntryId, prose: string, t: Reading)
    requires Compacted(items, settings, id, prose, t).Some?
    ensures Ends(Compacted(items, settings, id, prose, t).value, items, settings, id, t)
  {
    CompactionKeepsOriginals(items, settings, id, prose, t);
  }

  /**
   What is in a compacted transcript: the newest user turns without a gap that fit the budget, then the delegation
   results with fewer than the limit after them, each in its original order and copied verbatim; then the summary,
   in the summariser's words; then the tail, untouched. The counts are of what was kept.
   */
  lemma {:induction false} CompactionSelects(items: seq<Item>, settings: Settings, id: EntryId, prose: string,
                                             t: Reading)
    requires Compacted(items, settings, id, prose, t).Some?
    ensures var o := Compacted(items, settings, id, prose, t).value;
            && o.summary.prose == prose
            && (exists turns, results :: Selected(o, items, settings, id, t, turns, results))
            && o.replacedItems <= |items|
            && o.preservedDelegationResults ==
               Least(settings.delegationResults, Count(items[..o.replacedItems], DelegatedResult))
  {
    var o := Compacted(items, settings, id, prose, t).value;
    assert Ends(o, items, settings, id, t) by { CompactionEnds(items, settings, id, prose, t); }
    EndsSelect(o, items, settings, id, t);
  }

  lemma {:induction false} EndsSelect(o: Outcome, items: seq<Item>, settings: Settings, id: EntryId, t: Reading)
    requires Ends(o, items, settings, id, t)
    ensures exists turns, results :: Selected(o, items, settings, id, t, turns, results)
    ensures o.preservedDelegationResults ==
            Least(settings.delegationResults, Count(items[..o.replacedItems], DelegatedResult))
  {
    var prefix, tail := items[..o.replacedItems], items[o.replacedItems..];
    var turns, results := TurnPlaces(prefix, settings, t), ResultPlaces(prefix, settings);
    assert Salvaged(prefix, settings, t) == Picked(prefix, turns) + Picked(prefix, results)
           && o.preservedDelegationResults == Least(settings.delegationResults, Count(prefix, DelegatedResult)) by {
      SalvagedAre(prefix, settings, t);
    }
    TurnsSelected(prefix, settings, t);
    assert Rises(results) && ResultsKept(prefix, results, settings.delegationResults) by {
      NewestResultsKept(prefix, settings.delegationResults);
    }
    SalvagedInParts(o.items, Salvaged(prefix, settings, t), Picked(prefix, turns), Picked(prefix, results),
                    SummaryItem(id, o.summary, t), tail);
    OutcomeSelected(o, items, prefix, settings, id, t, turns, results);
  }

  /** The whole transcript is a tool call and its result, or a result alone. */
  predicate OneExchange(items: seq<Item>) {
    || (|items| == 1 && items[0].kind.ToolExchange?)
    || (|items| == 2 && items[0].kind.AssistantTurn? && items[1].kind.ToolExchange?)
  }

  /**
   A transcript is compacted unless it is empty or a single entry that is no tool exchange. The tail is the last
   entry, with the assistant turn before it when it is a tool exchange that answers one. So the last entry comes
   through untouched, except where the whole transcript is one exchange, which is summarised as a unit.
   */
  lemma {:induction false} LastEntryStays(items: seq<Item>, settings: Settings, id: EntryId, prose: string, t: Reading)
    ensures Compacted(items, settings, id, prose, t).None? <==>
              items == [] || (|items| == 1 && !items[0].kind.ToolExchange?)
    ensures Compacted(items, settings, id, prose, t).Some? ==>
              var o, last := Compacted(items, settings, id, prose, t).value, |items| - 1;
              var answers := last > 0 && items[last].kind.ToolExchange? && items[last - 1].kind.AssistantTurn?;
              && o.preservedItems == (if OneExchange(items) then 0 else if answers then 2 else 1)
              && (!OneExchange(items) ==> o.items != [] && Verbatim(o.items[|o.items| - 1], items[last]))
  {
    SplitsAt(items);
    if Compacted(items, settings, id, prose, t).Some? {
      var o := Compacted(items, settings, id, prose, t).value;
      assert o.preservedItems == |items| - PrefixLength(items) by { CompactedIs(items, settings, id, prose, t); }
      if !OneExchange(items) {
        LastIsKept(items, settings, id, prose, t);
      }
    }
  }

  lemma {:induction false} SplitsAt(items: seq<Item>)
    ensures PrefixLength(items) == 0 <==> items == [] || (|items| == 1 && !items[0].kind.ToolExchange?)
    ensures var last := |items| - 1;
            var answers := last > 0 && items[last].kind.ToolExchange? && items[last - 1].kind.AssistantTurn?;
            items != [] ==>
              |items| - PrefixLength(items) == if OneExchange(items) then 0 else if answers then 2 else 1
  {
  }

  lemma {:induction false} LastIsKept(items: seq<Item>, settings: Settings, id: EntryId, prose: string, t: Reading)
    requires Compacted(items, settings, id, prose, t).Some?
    requires Compacted(items, settings, id, prose, t).value.preservedItems > 0
    ensures var after := Compacted(items, settings, id, prose, t).value.items;
            after != [] && items != [] && Verbatim(after[|after| - 1], items[|items| - 1])
  {
    var o := Compacted(items, settings, id, prose, t).value;
    assert exists turns, results :: Selected(o, items, settings, id, t, turns, results) by {
      CompactionSelects(items, settings, id, prose, t);
    }
    var turns, results :| Selected(o, items, settings, id, t, turns, results);
    TailStays(o, items, settings, id, t, turns, results);
  }

  lemma {:induction false} TailStays(o: Outcome, items: seq<Item>, settings: Settings, id: EntryId, t: Reading,
                                     turns: seq<nat>, results: seq<nat>)
    requires Selected(o, items, settings, id, t, turns, results) && o.preservedItems > 0
    ensures o.items != [] && Verbatim(o.items[|o.items| - 1], items[|items| - 1])
  {
    var k := |items| - 1;
    assert Verbatim(o.items[|turns| + |results| + 1 + k - o.replacedItems], items[k]);
  }

}
