/**
 Compaction: a transcript is rewritten as salvaged turns, a summary of what was
 dropped, and an untouched tail.

 The summariser's prose, the token estimate, the file-path pattern and the
 rendering of a summary are parameters (`Reading`).
 */
module Compaction {
  import opened Base
  import opened Entries
  import Transcript

  /** What the engine reads off an entry's text. */
  datatype Reading = Reading(tokens: string -> nat, paths: string -> seq<string>, render: Summary -> string)

  datatype Settings = Settings(userTokens: nat, delegationResults: nat)

  function TextOf(item: Item): string {
    if item.message.Some? then item.message.value else ""
  }

  // ---------------------------------------------------------------- file lists

  /** `files` with every path of `found` not yet in it appended, in order of first sight. */
  function Accumulate(files: seq<string>, found: seq<string>): (r: seq<string>)
    decreases |found|
  {
    if found == [] then files
    else
      var before, path := Accumulate(files, found[..|found| - 1]), found[|found| - 1];
      if path in before then before else before + [path]
  }

  predicate NoRepeats(files: seq<string>) {
    forall i, j :: 0 <= i < j < |files| ==> files[i] != files[j]
  }

  /** Accumulating extends the list, keeps it free of repeats, and adds exactly the new paths. */
  lemma {:induction false} AccumulateUnites(files: seq<string>, found: seq<string>)
    ensures files <= Accumulate(files, found)
    ensures forall p :: p in Accumulate(files, found) <==> p in files || p in found
    ensures NoRepeats(files) ==> NoRepeats(Accumulate(files, found))
    decreases |found|
  {
    if found != [] {
      var front, path := found[..|found| - 1], found[|found| - 1];
      AccumulateUnites(files, front);
      assert found == front + [path];
    }
  }

  lemma {:induction false} AccumulateConcat(files: seq<string>, xs: seq<string>, ys: seq<string>)
    ensures Accumulate(files, xs + ys) == Accumulate(Accumulate(files, xs), ys)
    decreases |ys|
  {
    if ys == [] {
      assert xs + ys == xs;
    } else {
      AccumulateConcat(files, xs, ys[..|ys| - 1]);
      assert (xs + ys)[..|xs + ys| - 1] == xs + ys[..|ys| - 1];
    }
  }

  /** The paths tool exchanges mention, in order, with repeats. */
  function PathsIn(items: seq<Item>, t: Reading): (r: seq<string>)
    decreases |items|
  {
    if items == [] then []
    else
      var item := items[|items| - 1];
      PathsIn(items[..|items| - 1], t) + (if item.kind.ToolExchange? then t.paths(TextOf(item)) else [])
  }

  function ExtractFiles(items: seq<Item>, t: Reading): (r: seq<string>) {
    Accumulate([], PathsIn(items, t))
  }

  /** The file list of the newest summary. */
  function CarriedFiles(items: seq<Item>): (r: seq<string>)
    decreases |items|
  {
    if items == [] then []
    else if items[|items| - 1].kind.CompactionSummary? then items[|items| - 1].kind.summary.filesTouched
    else CarriedFiles(items[..|items| - 1])
  }

  // ---------------------------------------------------------------- what is kept

  /** Where the untouched tail starts: the last entry, or the assistant turn its tool exchange answers. */
  function TailStart(items: seq<Item>): (r: nat)
    ensures r <= |items|
  {
    if items == [] then 0
    else
      var last := |items| - 1;
      if items[last].kind.ToolExchange? && last > 0 && items[last - 1].kind.AssistantTurn? then last - 1 else last
  }

  predicate EndsInToolExchange(items: seq<Item>) {
    items != [] && items[|items| - 1].kind.ToolExchange?
  }

  /** How many entries are summarised: all of them when the whole transcript is one tool call and its result. */
  function PrefixLength(items: seq<Item>): (r: nat)
    ensures r <= |items|
  {
    if TailStart(items) == 0 && EndsInToolExchange(items) then |items| else TailStart(items)
  }

  /** The newest user turns that fit the budget, the very newest always; `first` while none is taken yet. */
  function KeptTurns(items: seq<Item>, remaining: nat, first: bool, t: Reading): (r: seq<Item>)
    decreases |items|
  {
    if items == [] then []
    else
      var front, item := items[..|items| - 1], items[|items| - 1];
      if !item.kind.UserTurn? then KeptTurns(front, remaining, first, t)
      else
        var cost := t.tokens(TextOf(item));
        if cost > remaining && !first then []
        else if cost >= remaining then [item]
        else KeptTurns(front, remaining - cost, false, t) + [item]
  }

  function UserTurns(items: seq<Item>): (r: seq<Item>)
    decreases |items|
  {
    if items == [] then []
    else
      var item := items[|items| - 1];
      UserTurns(items[..|items| - 1]) + (if item.kind.UserTurn? then [item] else [])
  }

  function DelegationResults(items: seq<Item>): (r: seq<Item>)
    decreases |items|
  {
    if items == [] then []
    else
      var item := items[|items| - 1];
      DelegationResults(items[..|items| - 1]) + (if item.kind.DelegationResult? then [item] else [])
  }

  function LastOf(s: seq<Item>, n: nat): (r: seq<Item>) {
    if n >= |s| then s else s[|s| - n..]
  }

  /** `into` with the entries of `more` that it does not already hold. */
  function AppendNew(into: seq<Item>, more: seq<Item>): (r: seq<Item>)
    decreases |more|
  {
    if more == [] then into
    else
      var before, item := AppendNew(into, more[..|more| - 1]), more[|more| - 1];
      if item in before then before else before + [item]
  }

  function Cost(items: seq<Item>, t: Reading): nat
    decreases |items|
  {
    if items == [] then 0 else Cost(items[..|items| - 1], t) + t.tokens(TextOf(items[|items| - 1]))
  }

  lemma {:induction false} CostAppend(items: seq<Item>, item: Item, t: Reading)
    ensures Cost(items + [item], t) == Cost(items, t) + t.tokens(TextOf(item))
  {
    assert (items + [item])[..|items|] == items;
  }

  ghost predicate Suffix(s: seq<Item>, of: seq<Item>) {
    |s| <= |of| && s == of[|of| - |s|..]
  }

  /** `kept` are the newest of `turns` without a gap, as many as the budget allows. */
  ghost predicate Fits(kept: seq<Item>, turns: seq<Item>, budget: nat, first: bool, t: Reading) {
    && Suffix(kept, turns)
    && (Cost(kept, t) <= budget || (first && |kept| == 1))
    && (first && turns != [] ==> kept != [])
    && (kept == turns || (kept != [] && Cost(kept, t) >= budget) || Cost(turns[|turns| - |kept| - 1..], t) > budget)
  }

  lemma {:induction false} FitsNone(turns: seq<Item>, item: Item, budget: nat, t: Reading)
    requires t.tokens(TextOf(item)) > budget
    ensures Fits([], turns + [item], budget, false, t)
  {
    assert (turns + [item])[|turns|..] == [item];
    CostAppend([], item, t);
    assert [] + [item] == [item];
  }

  lemma {:induction false} FitsOne(turns: seq<Item>, item: Item, budget: nat, first: bool, t: Reading)
    requires t.tokens(TextOf(item)) >= budget && (t.tokens(TextOf(item)) > budget ==> first)
    ensures Fits([item], turns + [item], budget, first, t)
  {
    assert (turns + [item])[|turns|..] == [item];
    CostAppend([], item, t);
    assert [] + [item] == [item];
  }

  lemma {:induction false} FitsOneMore(kept: seq<Item>, turns: seq<Item>, item: Item, budget: nat, first: bool,
                                       t: Reading)
    requires t.tokens(TextOf(item)) < budget && Fits(kept, turns, budget - t.tokens(TextOf(item)), false, t)
    ensures Fits(kept + [item], turns + [item], budget, first, t)
  {
    assert Cost(kept + [item], t) == Cost(kept, t) + t.tokens(TextOf(item)) by { CostAppend(kept, item, t); }
    assert Suffix(kept + [item], turns + [item]) by {
      assert (turns + [item])[|turns| - |kept|..] == turns[|turns| - |kept|..] + [item];
    }
    if kept != turns {
      var k := |turns| - |kept| - 1;
      assert |kept| < |turns|;
      assert Cost((turns + [item])[k..], t) == Cost(turns[k..], t) + t.tokens(TextOf(item)) by {
        assert (turns + [item])[k..] == turns[k..] + [item];
        CostAppend(turns[k..], item, t);
      }
    }
  }

  /**
   The kept turns are the newest user turns without a gap. They fit the budget unless they are a single turn, and
   the next older turn is left out only because the budget is used up or that turn would exceed it.
   */
  lemma {:induction false} KeptTurnsFit(items: seq<Item>, budget: nat, first: bool, t: Reading)
    ensures Fits(KeptTurns(items, budget, first, t), UserTurns(items), budget, first, t)
    decreases |items|
  {
    if items != [] {
      var front, item := items[..|items| - 1], items[|items| - 1];
      assert items == front + [item];
      if !item.kind.UserTurn? {
        assert Fits(KeptTurns(front, budget, first, t), UserTurns(front), budget, first, t) by {
          KeptTurnsFit(front, budget, first, t);
        }
        OtherIsSkipped(front, item, budget, first, t);
      } else {
        var cost := t.tokens(TextOf(item));
        if cost < budget {
          assert Fits(KeptTurns(front, budget - cost, false, t), UserTurns(front), budget - cost, false, t) by {
            KeptTurnsFit(front, budget - cost, false, t);
          }
        }
        KeptTurnFits(front, item, budget, first, t);
        TurnIsListed(front, item);
      }
    }
  }

  lemma {:induction false} OtherIsSkipped(front: seq<Item>, item: Item, budget: nat, first: bool, t: Reading)
    requires !item.kind.UserTurn?
    ensures KeptTurns(front + [item], budget, first, t) == KeptTurns(front, budget, first, t)
    ensures UserTurns(front + [item]) == UserTurns(front)
  {
    assert (front + [item])[..|front|] == front && UserTurns(front) + [] == UserTurns(front);
  }

  lemma {:induction false} TurnIsListed(front: seq<Item>, item: Item)
    requires item.kind.UserTurn?
    ensures UserTurns(front + [item]) == UserTurns(front) + [item]
  {
    assert (front + [item])[..|front|] == front;
  }

  lemma {:induction false} KeptAppend(front: seq<Item>, item: Item, budget: nat, first: bool, t: Reading)
    requires item.kind.UserTurn?
    ensures var cost := t.tokens(TextOf(item));
            KeptTurns(front + [item], budget, first, t) ==
              if cost > budget && !first then []
              else if cost >= budget then [item]
              else KeptTurns(front, budget - cost, false, t) + [item]
  {
    assert (front + [item])[..|front|] == front;
  }

  lemma {:induction false} KeptTurnFits(front: seq<Item>, item: Item, budget: nat, first: bool, t: Reading)
    requires item.kind.UserTurn?
    requires var cost := t.tokens(TextOf(item));
             cost < budget ==>
               Fits(KeptTurns(front, budget - cost, false, t), UserTurns(front), budget - cost, false, t)
    ensures Fits(KeptTurns(front + [item], budget, first, t), UserTurns(front) + [item], budget, first, t)
  {
    var turns, cost := UserTurns(front), t.tokens(TextOf(item));
    KeptAppend(front, item, budget, first, t);
    if cost > budget && !first {
      FitsNone(turns, item, budget, t);
    } else if cost >= budget {
      FitsOne(turns, item, budget, first, t);
    } else {
      FitsOneMore(KeptTurns(front, budget - cost, false, t), turns, item, budget, first, t);
    }
  }

  // ---------------------------------------------------------------- one compaction

  datatype Outcome = Outcome(items: seq<Item>, summary: Summary, replacedItems: nat, preservedItems: nat,
                             preservedUserTurns: nat, preservedDelegationResults: nat)

  function SummaryItem(id: EntryId, summary: Summary, t: Reading): Item {
    Item(id, None, CompactionSummary(summary), Some(t.render(summary)), None)
  }

  function Salvaged(prefix: seq<Item>, settings: Settings, t: Reading): (r: seq<Item>) {
    AppendNew(KeptTurns(prefix, settings.userTokens, true, t),
      LastOf(DelegationResults(prefix), settings.delegationResults))
  }

  /** The new active path; `id` and `prose` are the summary's fresh id and the summariser's answer. */
  function Compacted(items: seq<Item>, settings: Settings, id: EntryId, prose: string, t: Reading): (r: Option<Outcome>)
  {
    var n := PrefixLength(items);
    if n == 0 then None
    else
      var prefix := items[..n];
      var summary := Summary(prose, Accumulate(CarriedFiles(items), ExtractFiles(prefix, t)));
      var replacement := Salvaged(prefix, settings, t) + [SummaryItem(id, summary, t)] + items[n..];
      Some(Outcome(Link(replacement), summary, n, |items| - n,
                   |KeptTurns(prefix, settings.userTokens, true, t)|,
                   |LastOf(DelegationResults(prefix), settings.delegationResults)|))
  }

  // ---------------------------------------------------------------- survivors

  lemma {:induction false} TurnsAndResultsWithin(items: seq<Item>)
    ensures multiset(UserTurns(items)) + multiset(DelegationResults(items)) <= multiset(items)
    ensures forall e :: e in UserTurns(items) ==> e.kind.UserTurn?
    ensures forall e :: e in DelegationResults(items) ==> e.kind.DelegationResult?
    decreases |items|
  {
    if items != [] {
      var front, item := items[..|items| - 1], items[|items| - 1];
      TurnsAndResultsWithin(front);
      assert items == front + [item];
      assert multiset(items) == multiset(front) + multiset{item};
      assert multiset(UserTurns(items)) ==
        multiset(UserTurns(front)) + (if item.kind.UserTurn? then multiset{item} else multiset{});
      assert multiset(DelegationResults(items)) ==
        multiset(DelegationResults(front)) + (if item.kind.DelegationResult? then multiset{item} else multiset{});
    }
  }

  lemma {:induction false} SuffixWithin(s: seq<Item>, of: seq<Item>)
    requires Suffix(s, of)
    ensures multiset(s) <= multiset(of)
    ensures forall e :: e in s ==> e in of
  {
    assert of == of[..|of| - |s|] + s;
  }

  lemma {:induction false} AppendNewWithin(into: seq<Item>, more: seq<Item>)
    ensures multiset(AppendNew(into, more)) <= multiset(into) + multiset(more)
    ensures forall e :: e in AppendNew(into, more) <==> e in into || e in more
    decreases |more|
  {
    if more != [] {
      AppendNewWithin(into, more[..|more| - 1]);
      assert more == more[..|more| - 1] + [more[|more| - 1]];
    }
  }

  lemma {:induction false} SalvagedWithin(prefix: seq<Item>, settings: Settings, t: Reading)
    ensures multiset(Salvaged(prefix, settings, t)) <= multiset(prefix)
    ensures forall e :: e in Salvaged(prefix, settings, t) ==> e.kind.UserTurn? || e.kind.DelegationResult?
  {
    var kept := KeptTurns(prefix, settings.userTokens, true, t);
    var results := LastOf(DelegationResults(prefix), settings.delegationResults);
    KeptWithin(prefix, settings, t);
    assert multiset(AppendNew(kept, results)) <= multiset(kept) + multiset(results) by {
      AppendNewWithin(kept, results);
    }
    assert forall e :: e in AppendNew(kept, results) ==> e in kept || e in results by {
      AppendNewWithin(kept, results);
    }
  }

  lemma {:induction false} KeptWithin(prefix: seq<Item>, settings: Settings, t: Reading)
    ensures var kept := KeptTurns(prefix, settings.userTokens, true, t);
            var results := LastOf(DelegationResults(prefix), settings.delegationResults);
            && multiset(kept) + multiset(results) <= multiset(prefix)
            && (forall e :: e in kept ==> e.kind.UserTurn?)
            && (forall e :: e in results ==> e.kind.DelegationResult?)
  {
    var kept := KeptTurns(prefix, settings.userTokens, true, t);
    var results := LastOf(DelegationResults(prefix), settings.delegationResults);
    assert Suffix(kept, UserTurns(prefix)) by { KeptTurnsFit(prefix, settings.userTokens, true, t); }
    SuffixWithin(kept, UserTurns(prefix));
    SuffixWithin(results, DelegationResults(prefix));
    TurnsAndResultsWithin(prefix);
  }

  /** `e'` is `e` copied verbatim; only a missing parent link may have been filled in. */
  ghost predicate Verbatim(e': Item, e: Item) {
    e' == e || (e.parent.None? && e' == e.(parent := e'.parent))
  }

  lemma {:induction false} LinkVerbatim(items: seq<Item>)
    ensures forall k :: 0 <= k < |items| ==> Verbatim(Link(items)[k], items[k])
  {
  }

  /** Salvaged entries, the summary, and the tail, linked. */
  function Assembled(salvaged: seq<Item>, summary: Item, tail: seq<Item>): (r: seq<Item>) {
    Link(salvaged + [summary] + tail)
  }

  lemma {:induction false} CompactedIs(items: seq<Item>, settings: Settings, id: EntryId, prose: string, t: Reading)
    requires Compacted(items, settings, id, prose, t).Some?
    ensures var o, n := Compacted(items, settings, id, prose, t).value, PrefixLength(items);
            && n > 0 && o.replacedItems == n && o.preservedItems == |items| - n
            && o.items == Assembled(Salvaged(items[..n], settings, t), SummaryItem(id, o.summary, t), items[n..])
  {
  }

  /** `after` is `survivors` copied verbatim, with one more entry put in at `at`. */
  ghost predicate CopiedAround(after: seq<Item>, survivors: seq<Item>, at: nat, summary: Item) {
    && |after| == |survivors| + 1 && at <= |survivors|
    && Verbatim(after[at], summary)
    && forall k :: 0 <= k < |survivors| ==> CopiedAt(after, survivors, at, k)
  }

  ghost predicate CopiedAt(after: seq<Item>, survivors: seq<Item>, at: nat, k: nat)
    requires |after| == |survivors| + 1 && k < |survivors|
  {
    Verbatim(after[if k < at then k else k + 1], survivors[k])
  }

  lemma {:induction false} AroundIndex(salvaged: seq<Item>, summary: Item, tail: seq<Item>)
    ensures var whole, survivors := salvaged + [summary] + tail, salvaged + tail;
            && whole[|salvaged|] == summary
            && (forall k :: 0 <= k < |salvaged| ==> whole[k] == survivors[k])
            && (forall k :: |salvaged| <= k < |survivors| ==> whole[k + 1] == survivors[k])
  {
  }

  lemma {:induction false} AssembledCopies(salvaged: seq<Item>, summary: Item, tail: seq<Item>)
    ensures CopiedAround(Assembled(salvaged, summary, tail), salvaged + tail, |salvaged|, summary)
  {
    var whole, after := salvaged + [summary] + tail, Assembled(salvaged, summary, tail);
    AroundIndex(salvaged, summary, tail);
    LinkVerbatim(whole);
    assert Verbatim(after[|salvaged|], whole[|salvaged|]);
    forall k | 0 <= k < |salvaged + tail| ensures CopiedAt(after, salvaged + tail, |salvaged|, k) {
      assert Verbatim(after[if k < |salvaged| then k else k + 1], whole[if k < |salvaged| then k else k + 1]);
    }
  }

  lemma {:induction false} SurvivorsWithin(items: seq<Item>, n: nat, settings: Settings, t: Reading)
    requires n <= |items|
    ensures multiset(Salvaged(items[..n], settings, t) + items[n..]) <= multiset(items)
  {
    assert multiset(items) == multiset(items[..n]) + multiset(items[n..]) by {
      assert items == items[..n] + items[n..];
    }
    SalvagedWithin(items[..n], settings, t);
  }

  /**
   Every surviving entry is a verbatim copy of an original one and no original is copied twice; the summary stands
   between the salvaged entries and the tail; replaced and preserved entries add up to the original length.
   */
  lemma {:induction false} CompactionKeepsOriginals(items: seq<Item>, settings: Settings, id: EntryId, prose: string,
                                                    t: Reading)
    requires Compacted(items, settings, id, prose, t).Some?
    ensures var o := Compacted(items, settings, id, prose, t).value;
            && 0 < o.replacedItems <= |items|
            && o.replacedItems + o.preservedItems == |items|
            && var salvaged := Salvaged(items[..o.replacedItems], settings, t);
               var survivors := salvaged + items[o.replacedItems..];
               && multiset(survivors) <= multiset(items)
               && CopiedAround(o.items, survivors, |salvaged|, SummaryItem(id, o.summary, t))
  {
    var o, n := Compacted(items, settings, id, prose, t).value, PrefixLength(items);
    CompactedIs(items, settings, id, prose, t);
    AssembledCopies(Salvaged(items[..n], settings, t), SummaryItem(id, o.summary, t), items[n..]);
    SurvivorsWithin(items, n, settings, t);
  }

  ghost predicate NoTwins(m: multiset<Item>) {
    forall e :: e in m ==> m[e] == 1
  }

  lemma {:induction false} AppendNewAll(into: seq<Item>, more: seq<Item>)
    requires NoTwins(multiset(into) + multiset(more))
    ensures AppendNew(into, more) == into + more
    decreases |more|
  {
    if more == [] {
      assert into + more == into;
    } else {
      var front, item := more[..|more| - 1], more[|more| - 1];
      assert more == front + [item];
      assert multiset(more) == multiset(front) + multiset{item};
      assert NoTwins(multiset(into) + multiset(front)) by {
        forall e | e in multiset(into) + multiset(front) ensures (multiset(into) + multiset(front))[e] == 1 {
          assert e in multiset(into) + multiset(more);
        }
      }
      AppendNewAll(into, front);
      assert item !in into + front by {
        assert multiset(into + front)[item] == (multiset(into) + multiset(more))[item] - 1;
        assert item in into + front <==> item in multiset(into + front);
      }
    }
  }

  /** In a transcript without duplicate entries the reported counts are disjoint and account for the whole result. */
  lemma {:induction false} CountsAddUp(items: seq<Item>, settings: Settings, id: EntryId, prose: string, t: Reading)
    requires NoTwins(multiset(items)) && Compacted(items, settings, id, prose, t).Some?
    ensures var o := Compacted(items, settings, id, prose, t).value;
            var prefix := items[..o.replacedItems];
            && |o.items| == o.preservedUserTurns + o.preservedDelegationResults + 1 + o.preservedItems
            && Salvaged(prefix, settings, t)
               == KeptTurns(prefix, settings.userTokens, true, t) +
                 LastOf(DelegationResults(prefix), settings.delegationResults)
  {
    var n := PrefixLength(items);
    var prefix := items[..n];
    var kept := KeptTurns(prefix, settings.userTokens, true, t);
    var results := LastOf(DelegationResults(prefix), settings.delegationResults);
    assert multiset(kept) + multiset(results) <= multiset(prefix) by { KeptWithin(prefix, settings, t); }
    assert items == prefix + items[n..];
    NoTwinsWithin(multiset(kept) + multiset(results), multiset(items));
    AppendNewAll(kept, results);
  }

  lemma {:induction false} NoTwinsWithin(m: multiset<Item>, of: multiset<Item>)
    requires m <= of && NoTwins(of)
    ensures NoTwins(m)
  {
    forall e | e in m ensures m[e] == 1 {
      assert m[e] <= of[e] && e in of;
    }
  }

  // ---------------------------------------------------------------- tool exchanges stay answered

  /** Every tool exchange directly follows an assistant turn. */
  ghost predicate Paired(items: seq<Item>) {
    forall i :: 0 <= i < |items| && items[i].kind.ToolExchange? ==> i > 0 && items[i - 1].kind.AssistantTurn?
  }

  lemma {:induction false} AroundAt(salvaged: seq<Item>, summary: Item, tail: seq<Item>, k: nat)
    requires k < |salvaged| + 1 + |tail|
    ensures (salvaged + [summary] + tail)[k] ==
              if k < |salvaged| then salvaged[k] else if k == |salvaged| then summary else tail[k - |salvaged| - 1]
  {
  }

  lemma {:induction false} AssembledKind(salvaged: seq<Item>, summary: Item, tail: seq<Item>, k: nat)
    requires k < |salvaged| + 1 + |tail|
    ensures |Assembled(salvaged, summary, tail)| == |salvaged| + 1 + |tail|
    ensures Assembled(salvaged, summary, tail)[k].kind ==
              (if k < |salvaged| then salvaged[k]
               else if k == |salvaged| then summary
               else tail[k - |salvaged| - 1]).kind
  {
    var whole := salvaged + [summary] + tail;
    assert Link(whole)[k].kind == whole[k].kind by { LinkKeepsKinds(whole); }
    AroundAt(salvaged, summary, tail, k);
  }

  lemma {:induction false} SalvagedHasNoTools(prefix: seq<Item>, settings: Settings, t: Reading)
    ensures NoTools(Salvaged(prefix, settings, t))
  {
    var salvaged := Salvaged(prefix, settings, t);
    SalvagedWithin(prefix, settings, t);
    forall k | 0 <= k < |salvaged| ensures !salvaged[k].kind.ToolExchange? {
      assert salvaged[k] in salvaged;
    }
  }

  lemma {:induction false} OnlyTheTailHasTools(items: seq<Item>, settings: Settings, id: EntryId, prose: string,
                                               t: Reading)
    requires Compacted(items, settings, id, prose, t).Some?
    ensures var o := Compacted(items, settings, id, prose, t).value;
            var start := |o.items| - o.preservedItems;
            && 0 < start && o.replacedItems + o.preservedItems == |items|
            && (forall k :: 0 <= k < start ==> !o.items[k].kind.ToolExchange?)
            && (forall k :: start <= k < |o.items| ==> o.items[k].kind == items[k - start + o.replacedItems].kind)
  {
    var o, n := Compacted(items, settings, id, prose, t).value, PrefixLength(items);
    var salvaged, summary, tail := Salvaged(items[..n], settings, t), SummaryItem(id, o.summary, t), items[n..];
    CompactedIs(items, settings, id, prose, t);
    SalvagedHasNoTools(items[..n], settings, t);
    AssembledKind(salvaged, summary, tail, 0);
    var start := |salvaged| + 1;
    forall k | 0 <= k < start ensures !o.items[k].kind.ToolExchange? {
      AssembledKind(salvaged, summary, tail, k);
    }
    forall k | start <= k < |o.items| ensures o.items[k].kind == items[k - start + n].kind {
      AssembledKind(salvaged, summary, tail, k);
      assert tail[k - start] == items[k - start + n];
    }
  }

  lemma {:induction false} LinkKeepsKinds(items: seq<Item>)
    ensures forall k :: 0 <= k < |items| ==> Link(items)[k].kind == items[k].kind
  {
  }

  /** A transcript whose tool exchanges all follow an assistant turn still has that form once compacted. */
  lemma {:induction false} CompactionKeepsPairs(items: seq<Item>, settings: Settings, id: EntryId, prose: string,
                                                t: Reading)
    requires Paired(items) && Compacted(items, settings, id, prose, t).Some?
    ensures Paired(Compacted(items, settings, id, prose, t).value.items)
  {
    OnlyTheTailHasTools(items, settings, id, prose, t);
  }

  // ---------------------------------------------------------------- the file list over whole runs

  /** No summary comes after a tool exchange. */
  ghost predicate SummariesFirst(items: seq<Item>) {
    forall i, j :: 0 <= i < j < |items| && items[i].kind.ToolExchange? ==> !items[j].kind.CompactionSummary?
  }

  ghost predicate NoTools(items: seq<Item>) {
    forall i :: 0 <= i < |items| ==> !items[i].kind.ToolExchange?
  }

  ghost predicate NoSummaries(items: seq<Item>) {
    forall i :: 0 <= i < |items| ==> !items[i].kind.CompactionSummary?
  }

  lemma {:induction false} PathsOfConcat(xs: seq<Item>, ys: seq<Item>, t: Reading)
    ensures PathsIn(xs + ys, t) == PathsIn(xs, t) + PathsIn(ys, t)
    decreases |ys|
  {
    if ys == [] {
      assert xs + ys == xs;
      assert PathsIn(xs, t) + [] == PathsIn(xs, t);
    } else {
      PathsOfConcat(xs, ys[..|ys| - 1], t);
      assert (xs + ys)[..|xs + ys| - 1] == xs + ys[..|ys| - 1];
    }
  }

  lemma {:induction false} NoToolsNoPaths(items: seq<Item>, t: Reading)
    requires NoTools(items)
    ensures PathsIn(items, t) == []
    decreases |items|
  {
    if items != [] {
      NoToolsNoPaths(items[..|items| - 1], t);
    }
  }

  lemma {:induction false} CarriedOfConcat(xs: seq<Item>, ys: seq<Item>)
    ensures CarriedFiles(xs + ys) == if NoSummaries(ys) then CarriedFiles(xs) else CarriedFiles(ys)
    decreases |ys|
  {
    if ys == [] {
      assert xs + ys == xs;
    } else {
      var front, last := ys[..|ys| - 1], ys[|ys| - 1];
      CarriedOfConcat(xs, front);
      assert (xs + ys)[..|xs + ys| - 1] == xs + front;
      assert NoSummaries(ys) <==> NoSummaries(front) && !last.kind.CompactionSummary? by {
        assert ys == front + [last];
      }
    }
  }

  lemma {:induction false} LinkKeepsFiles(items: seq<Item>, t: Reading)
    ensures CarriedFiles(Link(items)) == CarriedFiles(items) && PathsIn(Link(items), t) == PathsIn(items, t)
    decreases |items|
  {
    if items != [] {
      var front := items[..|items| - 1];
      LinkKeepsFiles(front, t);
      assert Link(items)[..|items| - 1] == Link(front);
    }
  }

  lemma {:induction false} AssembledFiles(salvaged: seq<Item>, summary: Item, tail: seq<Item>, t: Reading)
    requires NoTools(salvaged) && summary.kind.CompactionSummary?
    ensures PathsIn(Assembled(salvaged, summary, tail), t) == PathsIn(tail, t)
    ensures CarriedFiles(Assembled(salvaged, summary, tail))
            == if NoSummaries(tail) then summary.kind.summary.filesTouched else CarriedFiles(tail)
  {
    var before := salvaged + [summary];
    LinkKeepsFiles(before + tail, t);
    assert PathsIn(before + tail, t) == PathsIn(tail, t) by {
      PathsOfConcat(before, tail, t);
      NoToolsNoPaths(before, t);
      assert [] + PathsIn(tail, t) == PathsIn(tail, t);
    }
    CarriedOfConcat(before, tail);
  }

  /** The file list after a compaction is the list before it, followed by what the summarised prefix adds. */
  lemma {:induction false} CompactionCarriesFiles(items: seq<Item>, settings: Settings, id: EntryId, prose: string,
                                                  t: Reading)
    requires SummariesFirst(items) && Compacted(items, settings, id, prose, t).Some?
    ensures var o := Compacted(items, settings, id, prose, t).value;
            && 0 < o.replacedItems <= |items|
            && CarriedFiles(o.items) == Accumulate(CarriedFiles(items), ExtractFiles(items[..o.replacedItems], t))
            && PathsIn(o.items, t) == PathsIn(items[o.replacedItems..], t)
  {
    var o, n := Compacted(items, settings, id, prose, t).value, PrefixLength(items);
    var tail := items[n..];
    assert o.summary.filesTouched == Accumulate(CarriedFiles(items), ExtractFiles(items[..n], t));
    CompactedIs(items, settings, id, prose, t);
    SalvagedHasNoTools(items[..n], settings, t);
    AssembledFiles(Salvaged(items[..n], settings, t), SummaryItem(id, o.summary, t), tail, t);
    if !NoSummaries(tail) {
      SummaryTailAddsNothing(items, t);
    }
  }

  /** When the kept tail is itself an old summary, nothing before it mentions a file. */
  lemma {:induction false} SummaryTailAddsNothing(items: seq<Item>, t: Reading)
    requires SummariesFirst(items) && !NoSummaries(items[PrefixLength(items)..])
    ensures var n := PrefixLength(items);
            && CarriedFiles(items[n..]) == CarriedFiles(items)
            && Accumulate(CarriedFiles(items), ExtractFiles(items[..n], t)) == CarriedFiles(items)
  {
    var n := PrefixLength(items);
    assert n == |items| - 1 && items[n].kind.CompactionSummary?;
    assert NoTools(items[..n]);
    NoToolsNoPaths(items[..n], t);
    assert items[n..] == [items[n]];
  }

  lemma {:induction false} CompactionKeepsOrder(items: seq<Item>, settings: Settings, id: EntryId, prose: string,
                                                t: Reading)
    requires Compacted(items, settings, id, prose, t).Some?
    ensures SummariesFirst(Compacted(items, settings, id, prose, t).value.items)
  {
    OnlyTheTailHasTools(items, settings, id, prose, t);
    var o := Compacted(items, settings, id, prose, t).value;
    assert forall i :: 0 <= i < |o.items| - 1 ==> !o.items[i].kind.ToolExchange?;
  }

  /** Every path the transcript still knows: recorded by its newest summary, or in a tool exchange it still holds. */
  ghost predicate Knows(items: seq<Item>, path: string, t: Reading) {
    path in CarriedFiles(items) || path in PathsIn(items, t)
  }

  datatype Op = Append(item: Item) | Compact(settings: Settings, id: EntryId, prose: string)

  function Appended(items: seq<Item>, item: Item): (r: seq<Item>) {
    Transcript.Pushed(Transcript.State(items, []), item).items
  }

  /** One operation on the active path; a compaction with nothing to summarise changes nothing. */
  function Apply(items: seq<Item>, op: Op, t: Reading): (r: seq<Item>) {
    match op
    case Append(item) => Appended(items, item)
    case Compact(settings, id, prose) =>
      match Compacted(items, settings, id, prose, t)
      case Some(o) => o.items
      case None => items
  }

  function ApplyAll(items: seq<Item>, ops: seq<Op>, t: Reading): (r: seq<Item>)
    decreases |ops|
  {
    if ops == [] then items else Apply(ApplyAll(items, ops[..|ops| - 1], t), ops[|ops| - 1], t)
  }

  /** Only compactions add summaries. */
  ghost predicate Ordinary(ops: seq<Op>) {
    forall k :: 0 <= k < |ops| && ops[k].Append? ==> !ops[k].item.kind.CompactionSummary?
  }

  ghost predicate Sound(items: seq<Item>) {
    SummariesFirst(items) && NoRepeats(CarriedFiles(items))
  }

  lemma {:induction false} AppendFiles(items: seq<Item>, item: Item, t: Reading)
    requires !item.kind.CompactionSummary?
    ensures CarriedFiles(Appended(items, item)) == CarriedFiles(items)
    ensures PathsIn(Appended(items, item), t) ==
          PathsIn(items, t) + (if item.kind.ToolExchange? then t.paths(TextOf(item)) else [])
  {
    var after := Appended(items, item);
    assert after[..|after| - 1] == items;
  }

  lemma {:induction false} FilesUnited(carried: seq<string>, paths: seq<string>)
    ensures var files := Accumulate(carried, Accumulate([], paths));
            && carried <= files
            && (NoRepeats(carried) ==> NoRepeats(files))
            && forall p :: p in files <==> p in carried || p in paths
  {
    AccumulateUnites([], paths);
    AccumulateUnites(carried, Accumulate([], paths));
  }

  lemma {:induction false} StepKeepsFiles(items: seq<Item>, op: Op, t: Reading)
    requires Sound(items) && (op.Append? ==> !op.item.kind.CompactionSummary?)
    ensures Sound(Apply(items, op, t))
    ensures CarriedFiles(items) <= CarriedFiles(Apply(items, op, t))
    ensures forall p :: Knows(Apply(items, op, t), p, t) <==>
              Knows(items, p, t) || (op.Append? && op.item.kind.ToolExchange? && p in t.paths(TextOf(op.item)))
  {
    match op
    case Append(item) => AppendFiles(items, item, t);
    case Compact(settings, id, prose) =>
      if Compacted(items, settings, id, prose, t).Some? {
        CompactKeepsFiles(items, settings, id, prose, t);
      }
  }

  lemma {:induction false} CompactKeepsFiles(items: seq<Item>, settings: Settings, id: EntryId, prose: string,
                                             t: Reading)
    requires Sound(items) && Compacted(items, settings, id, prose, t).Some?
    ensures var after := Compacted(items, settings, id, prose, t).value.items;
            && Sound(after) && CarriedFiles(items) <= CarriedFiles(after)
            && forall p :: Knows(after, p, t) <==> Knows(items, p, t)
  {
    var after, n := Compacted(items, settings, id, prose, t).value.items, PrefixLength(items);
    assert SummariesFirst(after) by { CompactionKeepsOrder(items, settings, id, prose, t); }
    assert CarriedFiles(after) == Accumulate(CarriedFiles(items), Accumulate([], PathsIn(items[..n], t)))
           && PathsIn(after, t) == PathsIn(items[n..], t) by {
      CompactionCarriesFiles(items, settings, id, prose, t);
    }
    FilesUnited(CarriedFiles(items), PathsIn(items[..n], t));
    assert PathsIn(items, t) == PathsIn(items[..n], t) + PathsIn(items[n..], t) by {
      PathsOfConcat(items[..n], items[n..], t);
      assert items == items[..n] + items[n..];
    }
  }

  /** A tool exchange appended by some operation, or there from the start, mentions `path`. */
  ghost predicate Mentioned(items: seq<Item>, ops: seq<Op>, path: string, t: Reading) {
    || path in PathsIn(items, t)
    || (exists k :: 0 <= k < |ops| && ops[k].Append? && ops[k].item.kind.ToolExchange? &&
                    path in t.paths(TextOf(ops[k].item)))
  }

  /**
   Over every run of appends and compactions from a transcript without summaries, the newest summary's file list
   has no repeats and only ever grows at its end, and no path any tool exchange ever mentioned is lost: it is in
   that list or in a tool exchange still on the path.
   */
  lemma {:induction false} RunsLoseNoFile(items: seq<Item>, ops: seq<Op>, t: Reading)
    requires NoSummaries(items) && Ordinary(ops)
    ensures Sound(ApplyAll(items, ops, t))
    ensures ops != [] ==> CarriedFiles(ApplyAll(items, ops[..|ops| - 1], t)) <= CarriedFiles(ApplyAll(items, ops, t))
    ensures forall p :: Knows(ApplyAll(items, ops, t), p, t) <==> Mentioned(items, ops, p, t)
    decreases |ops|
  {
    if ops == [] {
      CarriedOfConcat([], items);
      assert [] + items == items;
    } else {
      var front, op := ops[..|ops| - 1], ops[|ops| - 1];
      assert ops == front + [op];
      RunsLoseNoFile(items, front, t);
      StepKeepsFiles(ApplyAll(items, front, t), op, t);
      forall p ensures Mentioned(items, ops, p, t) <==>
                         Mentioned(items, front, p, t) ||
                           (op.Append? && op.item.kind.ToolExchange? && p in t.paths(TextOf(op.item)))
      {
        if Mentioned(items, front, p, t) && p !in PathsIn(items, t) {
          var k :| 0 <= k < |front| && front[k].Append? && front[k].item.kind.ToolExchange? &&
            p in t.paths(TextOf(front[k].item));
          assert ops[k] == front[k];
        } else if op.Append? && op.item.kind.ToolExchange? && p in t.paths(TextOf(op.item)) {
          assert ops[|ops| - 1] == op;
        }
      }
    }
  }

  /** A tool exchange whose message, if any, mentions `path`. */
  ghost predicate Mentions(item: Item, path: string, t: Reading) {
    && item.kind.ToolExchange?
    && match item.message
       case Some(text) => path in t.paths(text)
       case None => path in t.paths("")
  }

  ghost predicate MentionedIn(items: seq<Item>, path: string, t: Reading) {
    exists i :: 0 <= i < |items| && Mentions(items[i], path, t)
  }

  ghost predicate NewestSummary(items: seq<Item>, i: nat) {
    i < |items| && items[i].kind.CompactionSummary? && NoSummaries(items[i + 1..])
  }

  /** The newest summary lists `path`. */
  ghost predicate Recorded(items: seq<Item>, path: string) {
    exists i: nat :: NewestSummary(items, i) && path in items[i].kind.summary.filesTouched
  }

  lemma {:induction false} PathsAreMentions(items: seq<Item>, path: string, t: Reading)
    ensures path in PathsIn(items, t) <==> MentionedIn(items, path, t)
    decreases |items|
  {
    if items != [] {
      var front, item := items[..|items| - 1], items[|items| - 1];
      PathsAreMentions(front, path, t);
      assert MentionedIn(items, path, t) <==> MentionedIn(front, path, t) || Mentions(item, path, t) by {
        MentionedOneMore(front, item, path, t);
        assert items == front + [item];
      }
    }
  }

  lemma {:induction false} MentionedOneMore(items: seq<Item>, item: Item, path: string, t: Reading)
    ensures MentionedIn(items + [item], path, t) <==> MentionedIn(items, path, t) || Mentions(item, path, t)
  {
    var more := items + [item];
    if MentionedIn(items, path, t) {
      var i :| 0 <= i < |items| && Mentions(items[i], path, t);
      assert more[i] == items[i];
    } else if Mentions(item, path, t) {
      assert more[|items|] == item;
    }
  }

  lemma {:induction false} CarriedIsNewest(items: seq<Item>, i: nat)
    requires NewestSummary(items, i)
    ensures CarriedFiles(items) == items[i].kind.summary.filesTouched
  {
    var upTo := items[..i + 1];
    assert items == upTo + items[i + 1..];
    CarriedOfConcat(upTo, items[i + 1..]);
  }

  lemma {:induction false} CarriedIsRecorded(items: seq<Item>, path: string)
    ensures path in CarriedFiles(items) <==> Recorded(items, path)
  {
    if path in CarriedFiles(items) {
      var i := SummaryExists(items);
      CarriedIsNewest(items, i);
    } else if Recorded(items, path) {
      var i: nat :| NewestSummary(items, i) && path in items[i].kind.summary.filesTouched;
      assert false by { CarriedIsNewest(items, i); }
    }
  }

  lemma {:induction false} SummaryExists(items: seq<Item>) returns (i: nat)
    requires CarriedFiles(items) != []
    ensures NewestSummary(items, i)
    decreases |items|
  {
    if items[|items| - 1].kind.CompactionSummary? {
      i := |items| - 1;
      assert items[i + 1..] == [];
    } else {
      var front := items[..|items| - 1];
      i := SummaryExists(front);
      assert items[i + 1..] == front[i + 1..] + [items[|items| - 1]];
    }
  }

  /**
   Over every run of appends and compactions from a transcript without summaries, a path is in the newest summary's
   list or in a tool exchange still there if and only if some tool exchange mentioned it, at the start or when it
   was appended.
   */
  lemma {:induction false} NoPathIsLost(items: seq<Item>, ops: seq<Op>, path: string, t: Reading)
    requires NoSummaries(items) && Ordinary(ops)
    ensures var after := ApplyAll(items, ops, t);
            Recorded(after, path) || MentionedIn(after, path, t) <==>
              || MentionedIn(items, path, t)
              || (exists k :: 0 <= k < |ops| && ops[k].Append? && Mentions(ops[k].item, path, t))
  {
    var after := ApplyAll(items, ops, t);
    RunsLoseNoFile(items, ops, t);
    CarriedIsRecorded(after, path);
    PathsAreMentions(after, path, t);
    PathsAreMentions(items, path, t);
    assert Knows(after, path, t) <==> Mentioned(items, ops, path, t);
  }

  // ---------------------------------------------------------------- the program

  method AccumulateFiles(carried: seq<string>, found: seq<string>) returns (files: seq<string>)
    ensures files == Accumulate(carried, found)
  {
    var seen := set p | p in carried;
    files := carried;
    for k := 0 to |found|
      invariant files == Accumulate(carried, found[..k])
      invariant seen == set p | p in files
    {
      assert found[..k + 1][..k] == found[..k];
      if found[k] !in seen {
        seen := seen + {found[k]};
        files := files + [found[k]];
      }
    }
    assert found[..|found|] == found;
  }

  method ExtractContextFiles(items: seq<Item>, t: Reading) returns (files: seq<string>)
    ensures files == ExtractFiles(items, t)
  {
    files := [];
    for k := 0 to |items|
      invariant files == Accumulate([], PathsIn(items[..k], t))
    {
      assert items[..k + 1][..k] == items[..k];
      if items[k].kind.ToolExchange? {
        var found := t.paths(TextOf(items[k]));
        AccumulateConcat([], PathsIn(items[..k], t), found);
        files := AccumulateFiles(files, found);
      } else {
        assert PathsIn(items[..k], t) + [] == PathsIn(items[..k], t);
      }
    }
    assert items[..|items|] == items;
  }

  function Reversed(s: seq<Item>): (r: seq<Item>)
    ensures |r| == |s| && forall k :: 0 <= k < |s| ==> r[k] == s[|s| - 1 - k]
  {
    seq(|s|, i requires 0 <= i < |s| => s[|s| - 1 - i])
  }

  method SelectRecentUserTurns(items: seq<Item>, budget: nat, t: Reading) returns (kept: seq<Item>)
    ensures kept == KeptTurns(items, budget, true, t)
  {
    var selected: seq<Item> := [];
    var remaining := budget;
    ghost var older := KeptTurns(items, budget, true, t);
    assert items[..|items|] == items && older + Reversed([]) == older;
    var i := |items|;
    while i > 0
      invariant 0 <= i <= |items|
      invariant KeptTurns(items, budget, true, t) ==
            KeptTurns(items[..i], remaining, selected == [], t) + Reversed(selected)
    {
      i := i - 1;
      assert items[..i + 1][..i] == items[..i];
      if !items[i].kind.UserTurn? {
        continue;
      }
      var cost := t.tokens(TextOf(items[i]));
      ghost var all := KeptTurns(items, budget, true, t);
      if cost > remaining && selected != [] {
        assert [] + Reversed(selected) == Reversed(selected);
        break;
      }
      older := if cost >= remaining then [] else KeptTurns(items[..i], remaining - cost, false, t);
      assert [] + [items[i]] == [items[i]];
      assert all == (older + [items[i]]) + Reversed(selected);
      assert Reversed(selected + [items[i]]) == [items[i]] + Reversed(selected);
      selected := selected + [items[i]];
      assert all == older + Reversed(selected);
      remaining := if remaining < cost then 0 else remaining - cost;
      if remaining == 0 {
        assert [] + Reversed(selected) == Reversed(selected);
        break;
      }
    }
    kept := Reversed(selected);
  }

  /** Rewrites the active path, or reports that there is nothing older than the tail to summarise. */
  method CompactTranscript(items: seq<Item>, settings: Settings, id: EntryId, prose: string, t: Reading)
    returns (r: Option<Outcome>)
    ensures r == Compacted(items, settings, id, prose, t)
  {
    if |items| == 0 {
      return None;
    }
    var protectedStart := TailStart(items);
    var splitTurn := protectedStart == 0 && EndsInToolExchange(items);
    var tailStart := if splitTurn then |items| else protectedStart;
    var prefix := items[..tailStart];
    if |prefix| == 0 {
      return None;
    }
    var turns := SelectRecentUserTurns(prefix, settings.userTokens, t);
    var results := LastOf(DelegationResults(prefix), settings.delegationResults);
    var extracted := ExtractContextFiles(prefix, t);
    var files := AccumulateFiles(CarriedFiles(items), extracted);
    var summary := Summary(prose, files);
    var replacement := turns;
    for k := 0 to |results|
      invariant replacement == AppendNew(turns, results[..k])
    {
      assert results[..k + 1][..k] == results[..k];
      if results[k] !in replacement {
        replacement := replacement + [results[k]];
      }
    }
    assert results[..|results|] == results;
    replacement := replacement + [SummaryItem(id, summary, t)];
    replacement := replacement + items[tailStart..];
    var transcript := new Transcript.AgentTranscript.FromParts(replacement, []);
    return Some(Outcome(transcript.items, summary, |prefix|, |items| - tailStart, |turns|, |results|));
  }
}
