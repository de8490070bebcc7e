/** Which tools an agent offers its model, and which it lets the model call. */
module ToolVisibility {
  import opened Base
  import opened ToolRegistries

  /** One registration from the agent, then the audience, then the global layer. */
  function VisibleTool(l: Layers, agent: Option<string>, audience: Option<string>,
                       name: string): (r: Option<Registered>)
  {
    var own := if agent.Some? then Inner(l.agents, agent.value, name) else None;
    var shared := if audience.Some? then Inner(l.audiences, audience.value, name) else None;
    if own.Some? then own else if shared.Some? then shared else Find(l.tools, name)
  }

  datatype Resolution = Visible(tool: Registered) | Hidden | Missing

  function ResolveForScope(l: Layers, name: string, agent: Option<string>, audience: Option<string>): (r: Resolution) {
    match VisibleTool(l, agent, audience, name)
    case Some(tool) => Visible(tool)
    case None => if AnyContains(l.agents, name) || AnyContains(l.audiences, name) then Hidden else Missing
  }

  function RegistrationOf(r: Registered): Registration {
    Registration(r.generation, r.descriptor)
  }

  // ---------------------------------------------------------------- name order

  predicate Leq(a: string, b: string) {
    a == "" || (b != "" && (a[0] < b[0] || (a[0] == b[0] && Leq(a[1..], b[1..]))))
  }

  predicate Before(a: string, b: string) {
    Leq(a, b) && a != b
  }

  lemma {:induction false} LeqTotal(a: string, b: string)
    ensures Leq(a, b) || Leq(b, a)
    ensures Leq(a, b) && Leq(b, a) ==> a == b
    decreases |a|
  {
    if a != "" && b != "" {
      LeqTotal(a[1..], b[1..]);
      assert a == [a[0]] + a[1..] && b == [b[0]] + b[1..];
    }
  }

  lemma {:induction false} LeqTransitive(a: string, b: string, c: string)
    requires Leq(a, b) && Leq(b, c)
    ensures Leq(a, c)
    decreases |a|
  {
    if a != "" && a[0] == b[0] && b[0] == c[0] {
      LeqTransitive(a[1..], b[1..], c[1..]);
    }
  }

  /** Names are in order as in a dictionary: a prefix first, and else by the first letter that differs. */
  lemma {:induction false} LeqIsDictionary(common: string, a: string, b: string)
    ensures Leq(common, common + b)
    ensures a != "" && b != "" && a[0] != b[0] ==> (Leq(common + a, common + b) <==> a[0] < b[0])
    decreases |common|
  {
    if common == "" {
      assert common + a == a && common + b == b;
    } else {
      LeqIsDictionary(common[1..], a, b);
      assert (common + a)[1..] == common[1..] + a && (common + b)[1..] == common[1..] + b;
    }
  }

  ghost predicate Least(name: string, names: set<string>) {
    name in names && forall n :: n in names ==> Leq(name, n)
  }

  lemma {:induction false} LeastExists(names: set<string>)
    requires names != {}
    ensures exists name :: Least(name, names)
    decreases names
  {
    var x :| x in names;
    LeqTotal(x, x);
    if names == {x} {
      assert Least(x, names);
    } else {
      var others := names - {x};
      assert others != {};
      LeastExists(others);
      var y :| Least(y, others);
      LeqTotal(x, y);
      var least := if Leq(x, y) then x else y;
      forall n | n in names ensures Leq(least, n) {
        if n != x && Leq(x, y) {
          LeqTransitive(x, y, n);
        }
      }
      assert Least(least, names);
    }
  }

  // ---------------------------------------------------------------- the roster

  ghost predicate Keyed(l: Layers) {
    forall s: Slot :: At(l, s).Some? ==> At(l, s).value.descriptor.provider.name == s.name
  }

  /** Every registry any run of operations can reach names its slots by what stands in them. */
  lemma {:induction false} RunsAreKeyed(books: seq<Book>, ops: seq<Op>, given: seq<seq<Handler>>, k: nat)
    requires Run(books, ops, given) && k < |books|
    ensures Keyed(books[k].layers)
  {
    RunKeepsLedger(books, ops, given, k, k);
    forall s: Slot | At(books[k].layers, s).Some?
      ensures At(books[k].layers, s).value.descriptor.provider.name == s.name
    {
      assert Stands(books[k], s, At(books[k].layers, s).value);
    }
  }

  lemma {:induction false} VisibleIsKeyed(l: Layers, agent: Option<string>, audience: Option<string>, name: string)
    requires Keyed(l) && VisibleTool(l, agent, audience, name).Some?
    ensures VisibleTool(l, agent, audience, name).value.descriptor.provider.name == name
  {
    var found := VisibleTool(l, agent, audience, name);
    if agent.Some? && found == Inner(l.agents, agent.value, name) {
      assert At(l, OfAgent(agent.value, name)) == found;
    } else if audience.Some? && found == Inner(l.audiences, audience.value, name) {
      assert At(l, OfAudience(audience.value, name)) == found;
    } else {
      assert At(l, Global(name)) == found;
    }
  }

  /** `roster` lists exactly what call resolution would find, one entry a name, in name order. */
  ghost predicate IsRoster(l: Layers, agent: Option<string>, audience: Option<string>, roster: seq<Registration>) {
    && (forall i, j :: 0 <= i < j < |roster| ==> Before(roster[i].Name(), roster[j].Name()))
    && (forall i :: 0 <= i < |roster| ==>
          var found := VisibleTool(l, agent, audience, roster[i].Name());
          found.Some? && roster[i] == RegistrationOf(found.value))
    && (forall name :: VisibleTool(l, agent, audience, name).Some? ==>
          RegistrationOf(VisibleTool(l, agent, audience, name).value) in roster)
  }

  function NamesIn(l: Layers, agent: Option<string>, audience: Option<string>): set<string> {
    l.tools.Keys
    + (if audience.Some? && audience.value in l.audiences then l.audiences[audience.value].Keys else {})
    + (if agent.Some? && agent.value in l.agents then l.agents[agent.value].Keys else {})
  }

  /** `roster` lists what the names of `all` not in `left` resolve to, in order and before all of `left`. */
  ghost predicate Listed(l: Layers, agent: Option<string>, audience: Option<string>, all: set<string>,
                         left: set<string>, roster: seq<Registration>)
  {
    && left <= all
    && (forall i, j :: 0 <= i < j < |roster| ==> Before(roster[i].Name(), roster[j].Name()))
    && (forall i :: 0 <= i < |roster| ==> Resolves(l, agent, audience, roster[i]))
    && (forall i, n :: 0 <= i < |roster| && n in left ==> Before(roster[i].Name(), n))
    && (forall n :: n in all && n !in left ==> OnRoster(l, agent, audience, n, roster))
  }

  /** Calling by its name finds `r` itself. */
  ghost predicate Resolves(l: Layers, agent: Option<string>, audience: Option<string>, r: Registration) {
    var found := VisibleTool(l, agent, audience, r.Name());
    found.Some? && r == RegistrationOf(found.value)
  }

  ghost predicate OnRoster(l: Layers, agent: Option<string>, audience: Option<string>, name: string,
                           roster: seq<Registration>)
  {
    var found := VisibleTool(l, agent, audience, name);
    found.Some? && RegistrationOf(found.value) in roster
  }

  lemma {:induction false} ListedOneMore(l: Layers, agent: Option<string>, audience: Option<string>, all: set<string>,
                                         left: set<string>, roster: seq<Registration>, name: string, r: Registration)
    requires Listed(l, agent, audience, all, left, roster) && Least(name, left)
    requires r.Name() == name && Resolves(l, agent, audience, r)
    ensures Listed(l, agent, audience, all, left - {name}, roster + [r])
  {
    var roster' := roster + [r];
    forall i, j | 0 <= i < j < |roster'| ensures Before(roster'[i].Name(), roster'[j].Name()) {
      if j == |roster| {
        assert Before(roster[i].Name(), name);
      }
    }
    forall n | n in all && n !in left - {name} ensures OnRoster(l, agent, audience, n, roster') {
      if n == name {
        assert roster'[|roster|] == r;
      } else {
        assert OnRoster(l, agent, audience, n, roster);
      }
    }
  }

  method VisibleRegistrations(l: Layers, agent: Option<string>, audience: Option<string>)
    returns (roster: seq<Registration>)
    requires Keyed(l)
    ensures IsRoster(l, agent, audience, roster)
  {
    roster := [];
    var names := NamesIn(l, agent, audience);
    ghost var all := names;
    while names != {}
      invariant Listed(l, agent, audience, all, names, roster)
      decreases names
    {
      LeastExists(names);
      var name :| name in names && forall n :: n in names ==> Leq(name, n);
      var tool := VisibleTool(l, agent, audience, name);
      NamesAreVisible(l, agent, audience, name);
      VisibleIsKeyed(l, agent, audience, name);
      ListedOneMore(l, agent, audience, all, names, roster, name, RegistrationOf(tool.value));
      roster := roster + [RegistrationOf(tool.value)];
      names := names - {name};
    }
    ListedIsRoster(l, agent, audience, roster);
  }

  lemma {:induction false} NamesAreVisible(l: Layers, agent: Option<string>, audience: Option<string>, name: string)
    ensures VisibleTool(l, agent, audience, name).Some? <==> name in NamesIn(l, agent, audience)
  {
  }

  lemma {:induction false} ListedIsRoster(l: Layers, agent: Option<string>, audience: Option<string>,
                                          roster: seq<Registration>)
    requires Listed(l, agent, audience, NamesIn(l, agent, audience), {}, roster)
    ensures IsRoster(l, agent, audience, roster)
  {
    forall i | 0 <= i < |roster|
      ensures var found := VisibleTool(l, agent, audience, roster[i].Name());
              found.Some? && roster[i] == RegistrationOf(found.value)
    {
      assert Resolves(l, agent, audience, roster[i]);
    }
    forall name | VisibleTool(l, agent, audience, name).Some?
      ensures RegistrationOf(VisibleTool(l, agent, audience, name).value) in roster
    {
      NamesAreVisible(l, agent, audience, name);
      assert OnRoster(l, agent, audience, name, roster);
    }
  }

  // ---------------------------------------------------------------- the agent's view

  datatype Profile = Profile(allowed: Option<set<string>>, hidden: set<string>) {
    predicate Allows(name: string) {
      (allowed.None? || name in allowed.value) && name !in hidden
    }
  }

  /** A typed turn's terminal tool; a working turn keeps the other tools, a shaping turn does not. */
  datatype Gate = Gate(registration: Registration, keepsTools: bool)

  datatype View = View(id: string, audience: Option<string>, hidden: set<string>, profile: Profile,
                       teammate: bool, paging: bool, gate: Option<Gate>)

  const IDLE_TOOL := "idle"
  const READ_TOOL_RESULT_TOOL := "read_tool_result"

  predicate NameIsAllowed(v: View, name: string) {
    && !(v.gate.Some? && v.gate.value.registration.Name() == name)
    && name !in v.hidden
    && v.profile.Allows(name)
    && (name == IDLE_TOOL ==> v.teammate)
    && (name == READ_TOOL_RESULT_TOOL ==> v.paging)
  }

  predicate RegistrationIsAllowed(v: View, r: Registration) {
    if v.gate.Some? && v.gate.value.registration.generation == r.generation then true
    else if v.gate.Some? && v.gate.value.registration.Name() == r.Name() then false
    else NameIsAllowed(v, r.Name())
  }

  predicate IsOffered(v: View, r: Registration) {
    if v.gate.Some? && !v.gate.value.keepsTools then v.gate.value.registration.generation == r.generation
    else RegistrationIsAllowed(v, r)
  }

  function ResolveTool(l: Layers, v: View, name: string): (r: Resolution) {
    match ResolveForScope(l, name, Some(v.id), v.audience)
    case Visible(tool) => if RegistrationIsAllowed(v, RegistrationOf(tool)) then Visible(tool) else Hidden
    case Missing => if NameIsAllowed(v, name) then Missing else Hidden
    case Hidden => Hidden
  }

  /** The registrations whose specs go on the next request. */
  method OfferedTools(l: Layers, v: View)
    returns (offered: seq<Registration>, specs: seq<ProviderSpec>, ghost roster: seq<Registration>)
    requires Keyed(l)
    ensures IsRoster(l, Some(v.id), v.audience, roster)
    ensures forall r :: r in offered <==> r in roster && IsOffered(v, r)
    ensures |specs| == |offered| && forall i :: 0 <= i < |specs| ==> specs[i] == offered[i].descriptor.provider
    ensures forall i, j :: 0 <= i < j < |offered| ==> Before(offered[i].Name(), offered[j].Name())
  {
    var all := VisibleRegistrations(l, Some(v.id), v.audience);
    roster := all;
    offered, specs := [], [];
    for k := 0 to |all|
      invariant forall r :: r in offered <==> r in all[..k] && IsOffered(v, r)
      invariant |specs| == |offered| && forall i :: 0 <= i < |specs| ==> specs[i] == offered[i].descriptor.provider
      invariant forall i, j :: 0 <= i < |offered| && k <= j < |all| ==> Before(offered[i].Name(), all[j].Name())
      invariant forall i, j :: 0 <= i < j < |offered| ==> Before(offered[i].Name(), offered[j].Name())
    {
      if IsOffered(v, all[k]) {
        offered := offered + [all[k]];
        specs := specs + [all[k].descriptor.provider];
      }
      assert all[..k + 1] == all[..k] + [all[k]];
    }
    assert all[..|all|] == all;
  }

  /** With no gate, or with a working turn's gate, exactly the offered registrations are callable. */
  lemma {:induction false} OfferedIsCallable(l: Layers, v: View, roster: seq<Registration>, r: Registration)
    requires Keyed(l) && IsRoster(l, Some(v.id), v.audience, roster)
    requires v.gate.None? || v.gate.value.keepsTools
    ensures r in roster && IsOffered(v, r) <==>
              var found := ResolveTool(l, v, r.Name()); found.Visible? && RegistrationOf(found.tool) == r
  {
  }

  /**
   Under a shaping turn's gate nothing but the gate's own registration is offered. It is offered exactly while it
   is the one visible under its slot's name, and then calling that name reaches it.
   */
  lemma {:induction false} ShapingGateOffersItsOwn(l: Layers, v: View, roster: seq<Registration>, r: Registration)
    requires Keyed(l) && IsRoster(l, Some(v.id), v.audience, roster)
    requires v.gate.Some? && !v.gate.value.keepsTools
    ensures r in roster && IsOffered(v, r) <==>
              var found := VisibleTool(l, Some(v.id), v.audience, r.Name());
              found.Some? && r == RegistrationOf(found.value) && r.generation == v.gate.value.registration.generation
    ensures r in roster && IsOffered(v, r) ==>
              var found := ResolveTool(l, v, r.Name()); found.Visible? && RegistrationOf(found.tool) == r
  {
  }

  lemma {:induction false} ShapingGateOffersAtMostOne(b: Book, v: View, roster: seq<Registration>,
                                                      r: Registration, q: Registration)
    requires Ledger(b) && IsRoster(b.layers, Some(v.id), v.audience, roster)
    requires v.gate.Some? && !v.gate.value.keepsTools
    requires r in roster && IsOffered(v, r) && q in roster && IsOffered(v, q)
    ensures r == q
  {
    var s := VisibleSlot(b.layers, Some(v.id), v.audience, r.Name());
    var t := VisibleSlot(b.layers, Some(v.id), v.audience, q.Name());
    GenerationsAreUnique(b, s, t);
  }

  lemma {:induction false} VisibleSlot(l: Layers, agent: Option<string>, audience: Option<string>, name: string)
    returns (s: Slot)
    requires VisibleTool(l, agent, audience, name).Some?
    ensures At(l, s) == VisibleTool(l, agent, audience, name) && s.name == name && Rank(s, agent, audience).Some?
  {
    var found := VisibleTool(l, agent, audience, name);
    if agent.Some? && Inner(l.agents, agent.value, name).Some? {
      s := OfAgent(agent.value, name);
    } else if audience.Some? && Inner(l.audiences, audience.value, name).Some? {
      s := OfAudience(audience.value, name);
    } else {
      s := Global(name);
    }
  }

  /**
   A name some other agent or audience registered is hidden, not missing, so it cannot be told from a forbidden one.
   */
  lemma {:induction false} ResolutionIsTotal(l: Layers, v: View, name: string)
    ensures ResolveTool(l, v, name).Missing? <==>
              NameIsAllowed(v, name) && forall s: Slot :: s.name == name ==> At(l, s).None?
  {
    if ResolveForScope(l, name, Some(v.id), v.audience).Visible? {
      var s := VisibleSlot(l, Some(v.id), v.audience, name);
    } else if AnyContains(l.agents, name) {
      var o :| o in l.agents && name in l.agents[o];
      assert At(l, OfAgent(o, name)).Some?;
    } else if AnyContains(l.audiences, name) {
      var o :| o in l.audiences && name in l.audiences[o];
      assert At(l, OfAudience(o, name)).Some?;
    }
  }

  // ---------------------------------------------------------------- what a view takes away

  /** A view that withholds nothing. */
  predicate IsOpen(v: View) {
    && v.hidden == {} && v.profile == Profile(None, {}) && v.teammate && v.paging && v.gate.None?
  }

  /** Such an agent may call whatever its scope resolves to. */
  lemma {:induction false} OpenViewWithholdsNothing(l: Layers, v: View, name: string)
    requires Keyed(l) && IsOpen(v)
    ensures ResolveTool(l, v, name) == ResolveForScope(l, name, Some(v.id), v.audience)
  {
  }

  /** Calling `name` reaches the gate's own registration. */
  predicate ReachesGate(l: Layers, v: View, name: string) {
    var found := VisibleTool(l, Some(v.id), v.audience, name);
    v.gate.Some? && found.Some? && found.value.generation == v.gate.value.registration.generation
  }

  /** The view with `withheld` taken away: those names are hidden unless they reach the gate; nothing else changes. */
  ghost predicate Withholds(l: Layers, v: View, v': View, name: string, withheld: bool) {
    ResolveTool(l, v', name) == if withheld && !ReachesGate(l, v, name) then Hidden else ResolveTool(l, v, name)
  }

  /**
   Each restriction takes away exactly what it names: a name the agent or its profile hides, a name outside an allow
   list, the idle tool from all but teammates, the paging tool without paging. With `OpenViewWithholdsNothing` and
   `GateClaimsItsName` this settles every view.
   */
  lemma {:induction false} RestrictionsWithhold(l: Layers, v: View, hidden: string, allowed: set<string>, name: string)
    requires Keyed(l)
    ensures Withholds(l, v, v.(hidden := v.hidden + {hidden}), name, name == hidden)
    ensures Withholds(l, v, v.(profile := v.profile.(hidden := v.profile.hidden + {hidden})), name, name == hidden)
    ensures v.profile.allowed.None? ==>
              Withholds(l, v, v.(profile := v.profile.(allowed := Some(allowed))), name, name !in allowed)
    ensures v.teammate ==> Withholds(l, v, v.(teammate := false), name, name == "idle")
    ensures v.paging ==> Withholds(l, v, v.(paging := false), name, name == "read_tool_result")
  {
    if VisibleTool(l, Some(v.id), v.audience, name).Some? {
      VisibleIsKeyed(l, Some(v.id), v.audience, name);
    }
  }

  /**
   A turn's terminal tool claims its name: calling that name reaches the gate's registration, whatever else the view
   withholds, or is refused. Every other name resolves as without the gate, unless the gate's registration is there.
   */
  lemma {:induction false} GateClaimsItsName(l: Layers, v: View, gate: Gate, name: string)
    requires Keyed(l) && v.gate.None?
    ensures var v' := v.(gate := Some(gate));
            ResolveTool(l, v', name) ==
              if ReachesGate(l, v', name) then ResolveForScope(l, name, Some(v.id), v.audience)
              else if name == gate.registration.Name() then Hidden
              else ResolveTool(l, v, name)
  {
    if VisibleTool(l, Some(v.id), v.audience, name).Some? {
      VisibleIsKeyed(l, Some(v.id), v.audience, name);
    }
  }

  // ---------------------------------------------------------------- shadowing

  /** How near a slot is to a caller: its agent's own first, then its audience's, then the global one. */
  function Rank(s: Slot, who: Option<string>, audience: Option<string>): Option<nat> {
    match s
    case OfAgent(agent, _) => if who == Some(agent) then Some(0) else None
    case OfAudience(shared, _) => if audience == Some(shared) then Some(1) else None
    case Global(_) => Some(2)
  }

  /** A registration of `name` that was made for a slot within reach and has not been handed back. */
  ghost predicate InReach(b: Book, g: Generation, name: string, who: Option<string>, audience: Option<string>) {
    Live(b, g) && b.issued[g].slot.name == name && Rank(b.issued[g].slot, who, audience).Some?
  }

  lemma {:induction false} LiveStands(b: Book, g: Generation)
    requires Ledger(b) && Live(b, g)
    ensures At(b.layers, b.issued[g].slot).Some? && At(b.layers, b.issued[g].slot).value.generation == g
  {
    assert Holds(b.layers, b.issued[g].slot, g);
  }

  /**
   In every run a name resolves to the nearest registration ever made for it that has not been handed back; it
   resolves to none exactly when there is no such registration within reach.
   */
  lemma {:induction false} ResolvesToNearest(books: seq<Book>, ops: seq<Op>, given: seq<seq<Handler>>, k: nat,
                                             who: Option<string>, audience: Option<string>, name: string)
    requires Run(books, ops, given) && k < |books|
    ensures var b := books[k];
            match ResolveForScope(b.layers, name, who, audience)
            case Visible(tool) =>
              && InReach(b, tool.generation, name, who, audience)
              && b.issued[tool.generation].handler == tool.handler
              && var near := Rank(b.issued[tool.generation].slot, who, audience).value;
                 forall g :: InReach(b, g, name, who, audience) && g != tool.generation ==>
                   near < Rank(b.issued[g].slot, who, audience).value
            case _ => forall g :: !InReach(b, g, name, who, audience)
  {
    RunKeepsLedger(books, ops, given, k, k);
    var b := books[k];
    var found := VisibleTool(b.layers, who, audience, name);
    if found.Some? {
      var s := VisibleSlot(b.layers, who, audience, name);
      assert Stands(b, s, found.value);
      forall g | InReach(b, g, name, who, audience) && g != found.value.generation
        ensures Rank(s, who, audience).value < Rank(b.issued[g].slot, who, audience).value
      {
        LiveStands(b, g);
        NearerIsEmpty(b, who, audience, s, b.issued[g].slot);
      }
    } else {
      forall g ensures !InReach(b, g, name, who, audience) {
        if InReach(b, g, name, who, audience) {
          LiveStands(b, g);
          ReachedIsVisible(b.layers, who, audience, b.issued[g].slot);
        }
      }
    }
  }

  lemma {:induction false} ReachedIsVisible(l: Layers, who: Option<string>, audience: Option<string>, s: Slot)
    requires Rank(s, who, audience).Some? && At(l, s).Some?
    ensures VisibleTool(l, who, audience, s.name).Some?
  {
  }

  lemma {:induction false} NearerIsEmpty(b: Book, who: Option<string>, audience: Option<string>, s: Slot, t: Slot)
    requires Ledger(b) && Rank(s, who, audience).Some? && Rank(t, who, audience).Some? && s.name == t.name
    requires At(b.layers, s).Some? && At(b.layers, t).Some?
    requires VisibleTool(b.layers, who, audience, s.name) == At(b.layers, s)
    requires At(b.layers, s).value.generation != At(b.layers, t).value.generation
    ensures Rank(s, who, audience).value < Rank(t, who, audience).value
  {
    if who.Some? && At(b.layers, OfAgent(who.value, s.name)) == At(b.layers, s) {
      GenerationsAreUnique(b, s, OfAgent(who.value, s.name));
    }
  }

  /** Some agent or audience holds the name. */
  ghost predicate HeldInScope(l: Layers, name: string) {
    exists s: Slot :: !s.Global? && s.name == name && At(l, s).Some?
  }

  lemma {:induction false} ScopesHold(l: Layers, name: string)
    ensures AnyContains(l.agents, name) || AnyContains(l.audiences, name) <==> HeldInScope(l, name)
  {
    if AnyContains(l.agents, name) {
      var o :| o in l.agents && name in l.agents[o];
      assert At(l, OfAgent(o, name)).Some?;
    } else if AnyContains(l.audiences, name) {
      var o :| o in l.audiences && name in l.audiences[o];
      assert At(l, OfAudience(o, name)).Some?;
    } else if HeldInScope(l, name) {
      var s: Slot :| !s.Global? && s.name == name && At(l, s).Some?;
      assert false by { HeldIsContained(l, s); }
    }
  }

  lemma {:induction false} HeldIsContained(l: Layers, s: Slot)
    requires !s.Global? && At(l, s).Some?
    ensures AnyContains(l.agents, s.name) || AnyContains(l.audiences, s.name)
  {
    match s
    case OfAgent(agent, name) => assert agent in l.agents && name in l.agents[agent];
    case OfAudience(audience, name) => assert audience in l.audiences && name in l.audiences[audience];
  }

  /** Resolution looks at nothing but the slots of the name. */
  lemma {:induction false} SameSlotsSameAnswer(l: Layers, l': Layers, who: Option<string>, audience: Option<string>,
                                               name: string)
    requires forall s: Slot :: s.name == name ==> At(l', s) == At(l, s)
    ensures ResolveForScope(l', name, who, audience) == ResolveForScope(l, name, who, audience)
  {
    assert VisibleTool(l', who, audience, name) == VisibleTool(l, who, audience, name) by {
      SlotsDecide(l, l', who, audience, name);
    }
    ScopesHold(l, name);
    ScopesHold(l', name);
    assert HeldInScope(l', name) <==> HeldInScope(l, name);
  }

  lemma {:induction false} SlotsDecide(l: Layers, l': Layers, who: Option<string>, audience: Option<string>,
                                       name: string)
    requires forall s: Slot :: s.name == name ==> At(l', s) == At(l, s)
    ensures VisibleTool(l', who, audience, name) == VisibleTool(l, who, audience, name)
  {
    assert At(l', Global(name)) == At(l, Global(name));
    if who.Some? {
      assert At(l', OfAgent(who.value, name)) == At(l, OfAgent(who.value, name));
    }
    if audience.Some? {
      assert At(l', OfAudience(audience.value, name)) == At(l, OfAudience(audience.value, name));
    }
  }

  ghost function Fresh(b: Book, tool: Prepared): Registered {
    Registered(b.next, tool.descriptor, tool.handler)
  }

  /** Only `slot` changed, and it now holds `there`. */
  ghost predicate OnlyAt(l: Layers, slot: Slot, there: Option<Registered>, l': Layers) {
    forall s: Slot :: At(l', s) == if s == slot then there else At(l, s)
  }

  lemma {:induction false} InsertsAtOne(b: Book, slot: Slot, tool: Prepared, b': Book)
    requires Ledger(b) && Shifts(b, Some(Booking(slot, tool)), GenerationAt(b.layers, slot), b')
    ensures OnlyAt(b.layers, slot, Some(Fresh(b, tool)), b'.layers)
  {
    var added, dead := Some(Booking(slot, tool)), GenerationAt(b.layers, slot);
    forall s: Slot ensures At(b'.layers, s) == if s == slot then Some(Fresh(b, tool)) else At(b.layers, s) {
      assert At(b'.layers, s) == ShiftedAt(b, added, dead, s);
      if s != slot && At(b.layers, s).Some? && At(b.layers, s).value.generation in dead {
        GenerationsAreUnique(b, s, slot);
      }
    }
  }

  /** To a scope that does not reach the slot, a name newly held elsewhere is at most hidden instead of missing. */
  function Unreached(before: Resolution): Resolution {
    if before.Missing? then Hidden else before
  }

  /**
   A tool registered for an agent is what that agent reaches under the name, whatever its audience. Every other
   agent, and every other name, resolves as before, except that a name missing to others is now hidden from them.
   */
  lemma {:induction false} AgentShadows(b: Book, agent: string, tool: Prepared, b': Book,
                                        who: Option<string>, audience: Option<string>, name: string)
    requires Ledger(b) && Moves(b, InsertFor(OfAgent(agent, tool.Name()), tool), b')
    ensures var before := ResolveForScope(b.layers, name, who, audience);
            ResolveForScope(b'.layers, name, who, audience) ==
              if name != tool.Name() then before
              else if who == Some(agent) then Visible(Fresh(b, tool))
              else Unreached(before)
  {
    var slot := OfAgent(agent, tool.Name());
    InsertsAtOne(b, slot, tool, b');
    if name != tool.Name() {
      SameSlotsSameAnswer(b.layers, b'.layers, who, audience, name);
    } else {
      OneSlotDecides(b.layers, slot, Fresh(b, tool), b'.layers, who, audience);
    }
  }

  /**
   A tool registered for an audience is what everyone in it reaches under the name, but for an agent that holds the
   name itself. Everyone else, and every other name, resolves as before, missing turning to hidden as above.
   */
  lemma {:induction false} AudienceShadows(b: Book, shared: string, tool: Prepared, b': Book,
                                           who: Option<string>, audience: Option<string>, name: string)
    requires Ledger(b) && Moves(b, InsertFor(OfAudience(shared, tool.Name()), tool), b')
    ensures var before := ResolveForScope(b.layers, name, who, audience);
            var own := who.Some? && At(b.layers, OfAgent(who.value, name)).Some?;
            ResolveForScope(b'.layers, name, who, audience) ==
              if name != tool.Name() then before
              else if audience == Some(shared) && !own then Visible(Fresh(b, tool))
              else Unreached(before)
  {
    var slot := OfAudience(shared, tool.Name());
    InsertsAtOne(b, slot, tool, b');
    if name != tool.Name() {
      SameSlotsSameAnswer(b.layers, b'.layers, who, audience, name);
    } else {
      OneSlotDecides(b.layers, slot, Fresh(b, tool), b'.layers, who, audience);
    }
  }

  /** Filling one scoped slot, seen from anywhere. */
  lemma {:induction false} OneSlotDecides(l: Layers, slot: Slot, r: Registered, l': Layers, who: Option<string>,
                                          audience: Option<string>)
    requires !slot.Global? && OnlyAt(l, slot, Some(r), l')
    ensures var before := ResolveForScope(l, slot.name, who, audience);
            var own := who.Some? && At(l, OfAgent(who.value, slot.name)).Some?;
            ResolveForScope(l', slot.name, who, audience) ==
              if Rank(slot, who, audience).Some? && (slot.OfAgent? || !own) then Visible(r) else Unreached(before)
  {
    var name := slot.name;
    assert At(l', slot) == Some(r);
    assert HeldInScope(l', name);
    ScopesHold(l', name);
    ScopesHold(l, name);
    assert At(l', Global(name)) == At(l, Global(name));
    if who.Some? {
      assert At(l', OfAgent(who.value, name)) == if OfAgent(who.value, name) == slot then Some(r)
                                                 else At(l, OfAgent(who.value, name));
    }
    if audience.Some? {
      assert At(l', OfAudience(audience.value, name)) == if OfAudience(audience.value, name) == slot then Some(r)
                                                         else At(l, OfAudience(audience.value, name));
    }
  }

  /** A tool registered globally, replacing or not, is what everyone reaches under the name. */
  lemma {:induction false} GlobalReachesAll(b: Book, op: Op, tool: Prepared, b': Book,
                                            who: Option<string>, audience: Option<string>, name: string)
    requires Ledger(b) && Moves(b, op, b')
    requires op == Insert(tool) || (op == TryInsert(tool) && !Taken(b.layers, tool.Name()))
    ensures ResolveForScope(b'.layers, name, who, audience) ==
              if name == tool.Name() then Visible(Fresh(b, tool)) else ResolveForScope(b.layers, name, who, audience)
  {
    forall s: Slot
      ensures At(b'.layers, s) == if s == Global(tool.Name()) then Some(Fresh(b, tool))
                                  else if s.name == tool.Name() then None else At(b.layers, s)
    {
      GlobalClears(b, op, tool, b', s);
    }
    if name != tool.Name() {
      SameSlotsSameAnswer(b.layers, b'.layers, who, audience, name);
    } else {
      assert At(b'.layers, Global(name)) == Some(Fresh(b, tool));
      assert who.Some? ==> At(b'.layers, OfAgent(who.value, name)).None?;
      assert audience.Some? ==> At(b'.layers, OfAudience(audience.value, name)).None?;
    }
  }

  lemma {:induction false} GlobalClears(b: Book, op: Op, tool: Prepared, b': Book, s: Slot)
    requires Ledger(b) && Moves(b, op, b')
    requires op == Insert(tool) || (op == TryInsert(tool) && !Taken(b.layers, tool.Name()))
    ensures At(b'.layers, s) == if s == Global(tool.Name()) then Some(Fresh(b, tool))
                                else if s.name == tool.Name() then None else At(b.layers, s)
  {
    var added, dead := Some(Booking(Global(tool.Name()), tool)), Dead(b, op);
    assert At(b'.layers, s) == ShiftedAt(b, added, dead, s);
    if At(b.layers, s).Some? {
      assert Stands(b, s, At(b.layers, s).value);
    }
  }

  lemma {:induction false} DropEmptiesOne(b: Book, slot: Slot, registration: Registration, b': Book)
    requires Ledger(b) && Moves(b, Drop(slot, registration), b')
    ensures OnlyAt(b.layers, slot, if Holds(b.layers, slot, registration.generation) then None else At(b.layers, slot),
                   b'.layers)
  {
    var dead := Dead(b, Drop(slot, registration));
    forall s: Slot
      ensures At(b'.layers, s) ==
              if s == slot && Holds(b.layers, slot, registration.generation) then None else At(b.layers, s)
    {
      assert At(b'.layers, s) == ShiftedAt(b, None, dead, s);
      if s != slot && At(b.layers, s).Some? && At(b.layers, s).value.generation in dead {
        GenerationsAreUnique(b, s, slot);
      }
    }
  }

  /**
   Dropping a guard whose registration stands uncovers what is beneath it: an agent's slot, what callers without
   that agent reach; an audience's slot, what callers outside that audience reach. Nothing else changes, and a
   guard whose registration is gone changes nothing.
   */
  lemma {:induction false} DropUncovers(b: Book, slot: Slot, registration: Registration, b': Book,
                                        who: Option<string>, audience: Option<string>, name: string)
    requires Ledger(b) && !slot.Global? && Moves(b, Drop(slot, registration), b')
    ensures var reached := name == slot.name && Holds(b.layers, slot, registration.generation);
            VisibleTool(b'.layers, who, audience, name) ==
              VisibleTool(b.layers,
                          if reached && slot.OfAgent? && who == Some(slot.agent) then None else who,
                          if reached && slot.OfAudience? && audience == Some(slot.audience) then None else audience,
                          name)
  {
    DropEmptiesOne(b, slot, registration, b');
    assert At(b'.layers, Global(name)) == At(b.layers, Global(name));
    if who.Some? {
      assert At(b'.layers, OfAgent(who.value, name)) ==
        if OfAgent(who.value, name) == slot && Holds(b.layers, slot, registration.generation) then None
        else At(b.layers, OfAgent(who.value, name));
    }
    if audience.Some? {
      assert At(b'.layers, OfAudience(audience.value, name)) ==
        if OfAudience(audience.value, name) == slot && Holds(b.layers, slot, registration.generation) then None
        else At(b.layers, OfAudience(audience.value, name));
    }
  }

  /** Detaching a global tool takes it from those who reached it, and from nobody else. */
  lemma {:induction false} DetachTakesGlobal(b: Book, name: string, b': Book, who: Option<string>,
                                             audience: Option<string>, n: string)
    requires Ledger(b) && Moves(b, Detach(name), b')
    ensures var own := who.Some? && At(b.layers, OfAgent(who.value, n)).Some?;
            var shared := audience.Some? && At(b.layers, OfAudience(audience.value, n)).Some?;
            VisibleTool(b'.layers, who, audience, n) ==
              if n == name && !own && !shared then None else VisibleTool(b.layers, who, audience, n)
  {
    var slot, dead := Global(name), GenerationAt(b.layers, Global(name));
    forall s: Slot ensures At(b'.layers, s) == if s == slot then None else At(b.layers, s) {
      assert At(b'.layers, s) == ShiftedAt(b, None, dead, s);
      if s != slot && At(b.layers, s).Some? && At(b.layers, s).value.generation in dead {
        GenerationsAreUnique(b, s, slot);
      }
    }
    assert At(b'.layers, Global(n)) == if n == name then None else At(b.layers, Global(n));
    assert who.Some? ==> At(b'.layers, OfAgent(who.value, n)) == At(b.layers, OfAgent(who.value, n));
    assert audience.Some? ==>
      At(b'.layers, OfAudience(audience.value, n)) == At(b.layers, OfAudience(audience.value, n));
  }

  /** A registration in an empty slot whose guard is dropped leaves no trace: everyone resolves everything as before. */
  lemma {:induction false} RegistrationLeavesNoTrace(b: Book, slot: Slot, tool: Prepared, b1: Book, b2: Book,
                                                     who: Option<string>, audience: Option<string>, name: string)
    requires Ledger(b) && !slot.Global? && slot.name == tool.Name() && At(b.layers, slot).None?
    requires Moves(b, InsertFor(slot, tool), b1)
    requires Moves(b1, Drop(slot, Registration(b.next, tool.descriptor)), b2)
    ensures ResolveForScope(b2.layers, name, who, audience) == ResolveForScope(b.layers, name, who, audience)
  {
    InsertsAtOne(b, slot, tool, b1);
    MoveKeepsLedger(b, InsertFor(slot, tool), b1);
    DropEmptiesOne(b1, slot, Registration(b.next, tool.descriptor), b2);
    assert At(b1.layers, slot) == Some(Fresh(b, tool));
    forall s: Slot ensures At(b2.layers, s) == At(b.layers, s) {
      assert At(b1.layers, s) == if s == slot then Some(Fresh(b, tool)) else At(b.layers, s);
    }
    SameSlotsSameAnswer(b.layers, b2.layers, who, audience, name);
  }
}
