/**
 The tool registry: three layers of names (global, per audience, per agent), a
 generation stamped on every registration, and a cached list of the global
 layer's provider specs.

 A handler is known by a number. The ghost fields of the class are a ledger: for
 every generation issued so far, the slot and handler it was issued for, and
 whether that handler has been handed back. Every method is one step of `Moves`,
 and the theorems at the end are about every run of such steps, guard drops included.
 */
module ToolRegistries {
  import opened Base

  type Handler = nat
  type Generation = nat

  /** The counter panics rather than wrap around at this value. */
  const U64_MAX: Generation := 0xFFFF_FFFF_FFFF_FFFF

  datatype ProviderSpec = ProviderSpec(name: string, schema: string)
  datatype Descriptor = Descriptor(provider: ProviderSpec, runtime: string)
  datatype Registered = Registered(generation: Generation, descriptor: Descriptor, handler: Handler)
  datatype Registration = Registration(generation: Generation, descriptor: Descriptor) {
    function Name(): string { descriptor.provider.name }
  }
  datatype Prepared = Prepared(descriptor: Descriptor, handler: Handler) {
    function Name(): string { descriptor.provider.name }
  }

  type Scoped = map<string, map<string, Registered>>

  datatype Layers = Layers(tools: map<string, Registered>, agents: Scoped, audiences: Scoped)

  /** A place a registration can stand in. */
  datatype Slot =
    | Global(name: string)
    | OfAgent(agent: string, name: string)
    | OfAudience(audience: string, name: string)

  // ---------------------------------------------------------------- slots

  function Find<V>(m: map<string, V>, key: string): Option<V> {
    if key in m then Some(m[key]) else None
  }

  function Inner(m: Scoped, owner: string, name: string): Option<Registered> {
    if owner in m then Find(m[owner], name) else None
  }

  function At(l: Layers, s: Slot): Option<Registered> {
    match s
    case Global(name) => Find(l.tools, name)
    case OfAgent(agent, name) => Inner(l.agents, agent, name)
    case OfAudience(audience, name) => Inner(l.audiences, audience, name)
  }

  ghost predicate NoEmpty(m: Scoped) {
    forall o :: o in m ==> m[o] != map[]
  }

  function Put(m: Scoped, owner: string, name: string, r: Registered): (m': Scoped)
    ensures forall o, n :: Inner(m', o, n) == if o == owner && n == name then Some(r) else Inner(m, o, n)
    ensures NoEmpty(m) ==> NoEmpty(m')
  {
    var own := if owner in m then m[owner] else map[];
    assert name in own[name := r];
    m[owner := own[name := r]]
  }

  function Remove(m: Scoped, owner: string, name: string): (m': Scoped)
    requires Inner(m, owner, name).Some?
    ensures forall o, n :: Inner(m', o, n) == if o == owner && n == name then None else Inner(m, o, n)
    ensures NoEmpty(m) ==> NoEmpty(m')
  {
    var own := m[owner] - {name};
    if own == map[] then
      assert forall n :: n in m[owner] ==> n == name || n in own;
      m - {owner}
    else m[owner := own]
  }

  /** `m` without any registration under `name`. */
  ghost predicate Purged(m: Scoped, name: string, m': Scoped) {
    && (forall o, n :: Inner(m', o, n) == if n == name then None else Inner(m, o, n))
    && (NoEmpty(m) ==> NoEmpty(m'))
  }

  // ---------------------------------------------------------------- the ledger

  /** What a generation was issued for: the slot it was put in, and the handler. */
  datatype Issue = Issue(slot: Slot, handler: Handler)

  /** The layers with their history: every generation issued so far, and those whose handler was handed back. */
  datatype Book = Book(layers: Layers, issued: map<Generation, Issue>, back: set<Generation>, next: Generation)

  ghost predicate Live(b: Book, g: Generation) {
    g in b.issued && g !in b.back
  }

  /** `r` stands in slot `s` as booked. */
  ghost predicate Stands(b: Book, s: Slot, r: Registered) {
    Live(b, r.generation) && b.issued[r.generation] == Issue(s, r.handler) && r.descriptor.provider.name == s.name
  }

  /** The slot generation `g` was issued for holds it. */
  ghost predicate Holds(l: Layers, s: Slot, g: Generation) {
    At(l, s).Some? && At(l, s).value.generation == g
  }

  /**
   Every registration stands in the slot its generation was issued for, under its own name and handler, and every
   generation issued is in that slot or was handed back, never both.
   */
  ghost predicate Ledger(b: Book) {
    && (forall s: Slot :: At(b.layers, s).Some? ==> Stands(b, s, At(b.layers, s).value))
    && (forall g :: Live(b, g) ==> Holds(b.layers, b.issued[g].slot, g))
    && b.back <= b.issued.Keys
    && (forall g :: g in b.issued ==> g < b.next)
  }

  /** Generations are unique across all three layers. */
  lemma {:induction false} GenerationsAreUnique(b: Book, s: Slot, t: Slot)
    requires Ledger(b) && At(b.layers, s).Some? && At(b.layers, t).Some?
    requires At(b.layers, s).value.generation == At(b.layers, t).value.generation
    ensures s == t
  {
    assert Stands(b, s, At(b.layers, s).value) && Stands(b, t, At(b.layers, t).value);
  }

  /** The live generations issued under `name`, in any layer. */
  ghost function Under(b: Book, name: string): set<Generation> {
    set g | g in b.issued && g !in b.back && b.issued[g].slot.name == name
  }

  /** A registration about to be made. */
  datatype Booking = Booking(slot: Slot, tool: Prepared)

  ghost function Registers(b: Book, added: Option<Booking>, s: Slot): bool {
    added.Some? && added.value.slot == s
  }

  ghost function ShiftedAt(b: Book, added: Option<Booking>, dead: set<Generation>, s: Slot): Option<Registered> {
    if Registers(b, added, s) then Some(Registered(b.next, added.value.tool.descriptor, added.value.tool.handler))
    else if At(b.layers, s).Some? && At(b.layers, s).value.generation in dead then None
    else At(b.layers, s)
  }

  /** The `dead` generations leave their slots, and `added` is registered under the next one. */
  ghost predicate Shifts(b: Book, added: Option<Booking>, dead: set<Generation>, b': Book) {
    && (forall s: Slot :: At(b'.layers, s) == ShiftedAt(b, added, dead, s))
    && (forall g :: g in dead ==> Live(b, g))
    && b'.back == b.back + dead
    && if added.None? then b'.issued == b.issued && b'.next == b.next
       else
         && b'.issued == b.issued[b.next := Issue(added.value.slot, added.value.tool.handler)]
         && b'.next == b.next + 1
         && added.value.tool.Name() == added.value.slot.name
         && var there := At(b.layers, added.value.slot); there.Some? ==> there.value.generation in dead
  }

  lemma {:induction false} ShiftKeepsStanding(b: Book, added: Option<Booking>, dead: set<Generation>, b': Book, s: Slot)
    requires Ledger(b) && Shifts(b, added, dead, b') && At(b'.layers, s).Some?
    ensures Stands(b', s, At(b'.layers, s).value)
  {
    assert At(b'.layers, s) == ShiftedAt(b, added, dead, s);
    if !Registers(b, added, s) {
      assert Stands(b, s, At(b.layers, s).value);
    }
  }

  lemma {:induction false} ShiftKeepsHolding(b: Book, added: Option<Booking>, dead: set<Generation>, b': Book,
                                             g: Generation)
    requires Ledger(b) && Shifts(b, added, dead, b') && Live(b', g)
    ensures Holds(b'.layers, b'.issued[g].slot, g)
  {
    var s := b'.issued[g].slot;
    assert At(b'.layers, s) == ShiftedAt(b, added, dead, s);
    if added.None? || g != b.next {
      assert Live(b, g) && Holds(b.layers, s, g);
    }
  }

  lemma {:induction false} ShiftKeepsLedger(b: Book, added: Option<Booking>, dead: set<Generation>, b': Book)
    requires Ledger(b) && Shifts(b, added, dead, b')
    ensures Ledger(b')
  {
    forall s: Slot | At(b'.layers, s).Some? ensures Stands(b', s, At(b'.layers, s).value) {
      ShiftKeepsStanding(b, added, dead, b', s);
    }
    forall g | Live(b', g) ensures Holds(b'.layers, b'.issued[g].slot, g) {
      ShiftKeepsHolding(b, added, dead, b', g);
    }
  }

  // ---------------------------------------------------------------- the operations

  /** `Elsewhere` is any other registry drawing on the counter they all share. */
  datatype Op =
    | Insert(tool: Prepared)
    | TryInsert(tool: Prepared)
    | InsertFor(slot: Slot, tool: Prepared)
    | TryInsertFor(audience: string, tool: Prepared)
    | Detach(name: string)
    | Drop(slot: Slot, registration: Registration)
    | Refresh(current: Handler -> Descriptor)
    | Elsewhere(next: Generation)

  /** What the program's types rule out: a scoped operation names a scoped slot, and the name in it. */
  predicate WellFormed(op: Op) {
    match op
    case InsertFor(slot, tool) => !slot.Global? && tool.Name() == slot.name
    case Drop(slot, registration) => !slot.Global? && registration.Name() == slot.name
    case _ => true
  }

  /** Some layer, of any owner, holds the name. */
  ghost predicate Taken(l: Layers, name: string) {
    exists s: Slot :: s.name == name && At(l, s).Some?
  }

  /** What keeps a tool from being added for an audience: the name is global, or that audience's already. */
  predicate TakenFor(l: Layers, audience: string, name: string) {
    At(l, Global(name)).Some? || At(l, OfAudience(audience, name)).Some?
  }

  /** The registration an operation makes, if it makes one. */
  ghost function Added(l: Layers, op: Op): Option<Booking> {
    match op
    case Insert(tool) => Some(Booking(Global(tool.Name()), tool))
    case TryInsert(tool) => if Taken(l, tool.Name()) then None else Some(Booking(Global(tool.Name()), tool))
    case InsertFor(slot, tool) => Some(Booking(slot, tool))
    case TryInsertFor(audience, tool) =>
      if TakenFor(l, audience, tool.Name()) then None else Some(Booking(OfAudience(audience, tool.Name()), tool))
    case _ => None
  }

  ghost function GenerationAt(l: Layers, slot: Slot): set<Generation> {
    if At(l, slot).Some? then {At(l, slot).value.generation} else {}
  }

  /** The generations an operation takes out of their slots. */
  ghost function Dead(b: Book, op: Op): set<Generation> {
    match op
    case Insert(tool) => Under(b, tool.Name())
    case InsertFor(slot, _) => GenerationAt(b.layers, slot)
    case Detach(name) => GenerationAt(b.layers, Global(name))
    case Drop(slot, registration) => GenerationAt(b.layers, slot) * {registration.generation}
    case _ => {}
  }

  ghost predicate Moves(b: Book, op: Op, b': Book) {
    match op
    case Refresh(current) =>
      b' == b.(layers := b'.layers) && forall s: Slot :: At(b'.layers, s) == RefreshedAt(b.layers, s, current)
    case Elsewhere(next) => b' == b.(next := if next < b.next then b.next else next)
    case _ => Shifts(b, Added(b.layers, op), Dead(b, op), b')
  }

  /** New descriptors change neither who is registered nor under what generation and name. */
  lemma {:induction false} RefreshKeepsLedger(b: Book, current: Handler -> Descriptor, b': Book)
    requires Ledger(b) && Moves(b, Refresh(current), b')
    ensures Ledger(b')
  {
    forall s: Slot | At(b'.layers, s).Some? ensures Stands(b', s, At(b'.layers, s).value) {
      assert At(b'.layers, s) == RefreshedAt(b.layers, s, current) && Stands(b, s, At(b.layers, s).value);
    }
    forall g | Live(b', g) ensures Holds(b'.layers, b'.issued[g].slot, g) {
      assert Live(b, g) && Holds(b.layers, b.issued[g].slot, g);
      assert At(b'.layers, b.issued[g].slot) == RefreshedAt(b.layers, b.issued[g].slot, current);
    }
  }

  /** Every operation keeps the ledger: generations stay unique, and each is in its slot or handed back. */
  lemma {:induction false} MoveKeepsLedger(b: Book, op: Op, b': Book)
    requires Ledger(b) && Moves(b, op, b')
    ensures Ledger(b')
  {
    if op.Refresh? {
      RefreshKeepsLedger(b, op.current, b');
    } else if op.Elsewhere? {
      forall s: Slot | At(b'.layers, s).Some? ensures Stands(b', s, At(b'.layers, s).value) {
        assert Stands(b, s, At(b.layers, s).value);
      }
      assert forall g :: Live(b', g) <==> Live(b, g);
    } else {
      ShiftKeepsLedger(b, Added(b.layers, op), Dead(b, op), b');
    }
  }

  /** Emptying one occupied slot takes its generation out and no other. */
  lemma {:induction false} ClearOne(b: Book, slot: Slot, b': Book)
    requires Ledger(b) && At(b.layers, slot).Some?
    requires b' == b.(layers := b'.layers, back := b.back + GenerationAt(b.layers, slot))
    requires forall s: Slot :: At(b'.layers, s) == if s == slot then None else At(b.layers, s)
    ensures Shifts(b, None, GenerationAt(b.layers, slot), b')
  {
    assert Stands(b, slot, At(b.layers, slot).value);
    forall s: Slot ensures At(b'.layers, s) == ShiftedAt(b, None, GenerationAt(b.layers, slot), s) {
      if At(b.layers, s).Some? && At(b.layers, s).value.generation == At(b.layers, slot).value.generation {
        GenerationsAreUnique(b, s, slot);
      }
    }
  }

  /** Registering in one slot takes out what stood there and nothing else. */
  lemma {:induction false} PutOne(b: Book, slot: Slot, tool: Prepared, b': Book)
    requires Ledger(b) && tool.Name() == slot.name
    requires b'.issued == b.issued[b.next := Issue(slot, tool.handler)] && b'.next == b.next + 1
    requires b'.back == b.back + GenerationAt(b.layers, slot)
    requires forall s: Slot ::
               At(b'.layers, s) ==
               if s == slot then Some(Registered(b.next, tool.descriptor, tool.handler)) else At(b.layers, s)
    ensures Shifts(b, Some(Booking(slot, tool)), GenerationAt(b.layers, slot), b')
  {
    if At(b.layers, slot).Some? {
      assert Stands(b, slot, At(b.layers, slot).value);
    }
    var added, dead := Some(Booking(slot, tool)), GenerationAt(b.layers, slot);
    forall s: Slot ensures At(b'.layers, s) == ShiftedAt(b, added, dead, s) {
      if At(b.layers, s).Some? && At(b.layers, s).value.generation in dead {
        GenerationsAreUnique(b, s, slot);
      }
    }
  }

  /** Taking the global slot and emptying every other one of the name takes out all that stood under the name. */
  lemma {:induction false} PutEverywhere(b: Book, tool: Prepared, b': Book)
    requires Ledger(b)
    requires b'.issued == b.issued[b.next := Issue(Global(tool.Name()), tool.handler)] && b'.next == b.next + 1
    requires b'.back == b.back + Under(b, tool.Name())
    requires forall s: Slot ::
               At(b'.layers, s) ==
               if s == Global(tool.Name()) then Some(Registered(b.next, tool.descriptor, tool.handler))
               else if s.name == tool.Name() then None else At(b.layers, s)
    ensures Shifts(b, Some(Booking(Global(tool.Name()), tool)), Under(b, tool.Name()), b')
  {
    var added, dead := Some(Booking(Global(tool.Name()), tool)), Under(b, tool.Name());
    forall s: Slot ensures At(b'.layers, s) == ShiftedAt(b, added, dead, s) {
      if At(b.layers, s).Some? {
        assert Stands(b, s, At(b.layers, s).value);
      }
    }
    var global := At(b.layers, Global(tool.Name()));
    if global.Some? {
      assert Stands(b, Global(tool.Name()), global.value);
    }
  }

  // ---------------------------------------------------------------- what is handed back

  /** `gone` are the generations `dead`, each once. */
  ghost predicate Lists(gone: seq<Generation>, dead: set<Generation>) {
    && (forall i :: 0 <= i < |gone| ==> gone[i] in dead)
    && (forall g :: g in dead ==> g in gone)
    && (forall i, j :: 0 <= i < j < |gone| ==> gone[i] != gone[j])
  }

  ghost predicate Handlers(issued: map<Generation, Issue>, gone: seq<Generation>, given: seq<Handler>) {
    |given| == |gone| && forall i :: 0 <= i < |gone| ==> gone[i] in issued && given[i] == issued[gone[i]].handler
  }

  /** `given` are the handlers of the generations `dead`, each once. */
  ghost predicate Given(issued: map<Generation, Issue>, dead: set<Generation>, given: seq<Handler>) {
    exists gone :: Lists(gone, dead) && Handlers(issued, gone, given)
  }

  lemma {:induction false} GivenNone(issued: map<Generation, Issue>)
    ensures Given(issued, {}, [])
  {
    assert Lists([], {}) && Handlers(issued, [], []);
  }

  lemma {:induction false} GivenOne(issued: map<Generation, Issue>, g: Generation)
    requires g in issued
    ensures Given(issued, {g}, [issued[g].handler])
  {
    assert Lists([g], {g}) && Handlers(issued, [g], [issued[g].handler]);
  }

  lemma {:induction false} GivenStanding(b: Book, slot: Slot)
    requires Ledger(b)
    ensures Given(b.issued, GenerationAt(b.layers, slot), Previous(At(b.layers, slot)))
  {
    if At(b.layers, slot).Some? {
      assert Stands(b, slot, At(b.layers, slot).value);
      GivenOne(b.issued, At(b.layers, slot).value.generation);
    } else {
      GivenNone(b.issued);
    }
  }

  /** One listing is all there is of a single generation. */
  lemma {:induction false} GivenOnly(issued: map<Generation, Issue>, g: Generation, given: seq<Handler>)
    requires g in issued && Given(issued, {g}, given)
    ensures given == [issued[g].handler]
  {
    var gone :| Lists(gone, {g}) && Handlers(issued, gone, given);
    assert g in gone;
    if |gone| >= 2 {
      OneIsListedOnce(gone, g);
    }
  }

  lemma {:induction false} OneIsListedOnce(gone: seq<Generation>, g: Generation)
    requires |gone| >= 2
    ensures !Lists(gone, {g})
  {
    assert gone[0] in {g} && gone[1] in {g} ==> gone[0] == gone[1];
  }

  lemma {:induction false} GivenNothing(issued: map<Generation, Issue>, dead: set<Generation>, given: seq<Handler>)
    requires dead == {} && Given(issued, dead, given)
    ensures given == []
  {
    var gone :| Lists(gone, dead) && Handlers(issued, gone, given);
    if gone != [] {
      NothingIsListed(gone);
    }
  }

  lemma {:induction false} NothingIsListed(gone: seq<Generation>)
    requires gone != []
    ensures !Lists(gone, {})
  {
    assert gone[0] in gone;
  }

  // ---------------------------------------------------------------- the cached specs

  /** The list holds the global layer's provider specs, each once. */
  ghost predicate SpecsMatch(tools: map<string, Registered>, specs: seq<ProviderSpec>) {
    && (forall n :: n in tools ==> tools[n].descriptor.provider in specs)
    && (forall i :: 0 <= i < |specs| ==> specs[i].name in tools && tools[specs[i].name].descriptor.provider == specs[i])
    && (forall i, j :: 0 <= i < j < |specs| ==> specs[i].name != specs[j].name)
  }

  ghost predicate KeyedByName(tools: map<string, Registered>) {
    forall n :: n in tools ==> tools[n].descriptor.provider.name == n
  }

  /** Collects the specs, in whatever order the hash map yields them. */
  method CollectSpecs(tools: map<string, Registered>) returns (specs: seq<ProviderSpec>)
    requires KeyedByName(tools)
    ensures SpecsMatch(tools, specs)
  {
    specs := [];
    var remaining := tools.Keys;
    while remaining != {}
      invariant remaining <= tools.Keys
      invariant forall n :: n in tools && n !in remaining ==> tools[n].descriptor.provider in specs
      invariant forall i :: 0 <= i < |specs| ==>
                  && specs[i].name in tools && specs[i].name !in remaining
                  && tools[specs[i].name].descriptor.provider == specs[i]
      invariant forall i, j :: 0 <= i < j < |specs| ==> specs[i].name != specs[j].name
      decreases remaining
    {
      var name :| name in remaining;
      specs := specs + [tools[name].descriptor.provider];
      remaining := remaining - {name};
    }
  }

  /** `owners` are those with a registration under `name`, each once. */
  ghost predicate OwnersOf(m: Scoped, name: string, owners: seq<string>) {
    && (forall i :: 0 <= i < |owners| ==> Inner(m, owners[i], name).Some?)
    && (forall i, j :: 0 <= i < j < |owners| ==> owners[i] != owners[j])
    && (forall o :: Inner(m, o, name).Some? ==> o in owners)
  }

  /** Removes `name` from every owner, dropping owners left with nothing, and hands back what was there. */
  method Purge(m: Scoped, name: string) returns (m': Scoped, displaced: seq<Handler>, ghost owners: seq<string>)
    ensures Purged(m, name, m') && OwnersOf(m, name, owners)
    ensures |displaced| == |owners|
    ensures forall i :: 0 <= i < |owners| ==> displaced[i] == Inner(m, owners[i], name).value.handler
  {
    m', displaced, owners := m, [], [];
    var left := m.Keys;
    while left != {}
      invariant left <= m.Keys
      invariant forall o, n :: Inner(m', o, n) == if n == name && o !in left then None else Inner(m, o, n)
      invariant NoEmpty(m) ==> NoEmpty(m')
      invariant |displaced| == |owners|
      invariant forall i :: 0 <= i < |owners| ==> owners[i] !in left && Inner(m, owners[i], name).Some?
      invariant forall i :: 0 <= i < |owners| ==> displaced[i] == Inner(m, owners[i], name).value.handler
      invariant forall i, j :: 0 <= i < j < |owners| ==> owners[i] != owners[j]
      invariant forall o :: o !in left && Inner(m, o, name).Some? ==> o in owners
      decreases left
    {
      var owner :| owner in left;
      var found := Inner(m', owner, name);
      if found.Some? {
        displaced, owners := displaced + [found.value.handler], owners + [owner];
        m' := Remove(m', owner, name);
      }
      left := left - {owner};
    }
  }

  // ---------------------------------------------------------------- the registry

  datatype Insertion = Insertion(registration: Registration, displaced: seq<Handler>)

  datatype Collision = Collision(name: string, rejected: Prepared)

  /** `slots` are occupied slots under `name`, each once, and `displaced` the handlers in them. */
  ghost predicate Occupied(l: Layers, name: string, slots: seq<Slot>, displaced: seq<Handler>) {
    && |displaced| == |slots|
    && (forall i :: 0 <= i < |slots| ==>
          slots[i].name == name && At(l, slots[i]).Some? && displaced[i] == At(l, slots[i]).value.handler)
    && (forall i, j :: 0 <= i < j < |slots| ==> slots[i] != slots[j])
  }

  /** `slots` are all the occupied slots under `name`. */
  ghost predicate HandedBack(l: Layers, name: string, slots: seq<Slot>, displaced: seq<Handler>) {
    && Occupied(l, name, slots, displaced)
    && (forall s: Slot :: s.name == name && At(l, s).Some? ==> s in slots)
  }

  lemma {:induction false} OccupiedBoth(l: Layers, name: string, xs: seq<Slot>, ys: seq<Slot>,
                                        hs: seq<Handler>, gs: seq<Handler>)
    requires Occupied(l, name, xs, hs) && Occupied(l, name, ys, gs)
    requires forall i, j :: 0 <= i < |xs| && 0 <= j < |ys| ==> xs[i] != ys[j]
    ensures Occupied(l, name, xs + ys, hs + gs)
  {
    var both := xs + ys;
    forall i, j | 0 <= i < j < |both| ensures both[i] != both[j] {
      if i < |xs| <= j {
        assert both[i] == xs[i] && both[j] == ys[j - |xs|];
      }
    }
  }

  /** What is handed back under a name is what was booked under it. */
  lemma {:induction false} GivenUnder(b: Book, name: string, slots: seq<Slot>, displaced: seq<Handler>)
    requires Ledger(b) && HandedBack(b.layers, name, slots, displaced)
    ensures Given(b.issued, Under(b, name), displaced)
  {
    forall i | 0 <= i < |slots| ensures Stands(b, slots[i], At(b.layers, slots[i]).value) {
    }
    var gone := seq(|slots|, i requires 0 <= i < |slots| && At(b.layers, slots[i]).Some? =>
      At(b.layers, slots[i]).value.generation);
    assert Handlers(b.issued, gone, displaced);
    forall g | g in Under(b, name) ensures g in gone {
      var s := b.issued[g].slot;
      assert Holds(b.layers, s, g) && s in slots;
      var i :| 0 <= i < |slots| && slots[i] == s;
      assert gone[i] == g;
    }
    forall i, j | 0 <= i < j < |gone| ensures gone[i] != gone[j] {
      if gone[i] == gone[j] {
        GenerationsAreUnique(b, slots[i], slots[j]);
      }
    }
    assert Lists(gone, Under(b, name));
  }

  ghost function AudienceSlots(owners: seq<string>, name: string): (r: seq<Slot>)
    ensures |r| == |owners| && forall i :: 0 <= i < |owners| ==> r[i] == OfAudience(owners[i], name)
  {
    seq(|owners|, i requires 0 <= i < |owners| => OfAudience(owners[i], name))
  }

  ghost function AgentSlots(owners: seq<string>, name: string): (r: seq<Slot>)
    ensures |r| == |owners| && forall i :: 0 <= i < |owners| ==> r[i] == OfAgent(owners[i], name)
  {
    seq(|owners|, i requires 0 <= i < |owners| => OfAgent(owners[i], name))
  }

  lemma {:induction false} SlotListed(l: Layers, name: string, first: seq<Slot>, audiences: seq<string>,
                                      agents: seq<string>, s: Slot)
    requires OwnersOf(l.audiences, name, audiences) && OwnersOf(l.agents, name, agents)
    requires first == if name in l.tools then [Global(name)] else []
    requires s.name == name && At(l, s).Some?
    ensures s in first + AudienceSlots(audiences, name) + AgentSlots(agents, name)
  {
    match s
    case Global(_) => assert s in first;
    case OfAudience(audience, _) =>
      var i :| 0 <= i < |audiences| && audiences[i] == audience;
      assert AudienceSlots(audiences, name)[i] == s;
    case OfAgent(agent, _) =>
      var i :| 0 <= i < |agents| && agents[i] == agent;
      assert AgentSlots(agents, name)[i] == s;
  }

  /** Emptying the global slot, every audience's and every agent's hands back exactly what was under the name. */
  lemma {:induction false} PurgeHandsBack(l: Layers, name: string, first: seq<Slot>, audiences: seq<string>,
                                          agents: seq<string>, own: seq<Handler>,
                                          fromAudiences: seq<Handler>, fromAgents: seq<Handler>)
    requires OwnersOf(l.audiences, name, audiences) && OwnersOf(l.agents, name, agents)
    requires own == if name in l.tools then [l.tools[name].handler] else []
    requires first == if name in l.tools then [Global(name)] else []
    requires |fromAudiences| == |audiences| && |fromAgents| == |agents|
    requires forall i :: 0 <= i < |audiences| ==>
          fromAudiences[i] == Inner(l.audiences, audiences[i], name).value.handler
    requires forall i :: 0 <= i < |agents| ==> fromAgents[i] == Inner(l.agents, agents[i], name).value.handler
    ensures HandedBack(l, name, first + AudienceSlots(audiences, name) + AgentSlots(agents, name),
                       own + fromAudiences + fromAgents)
  {
    var shared, scoped := AudienceSlots(audiences, name), AgentSlots(agents, name);
    assert Occupied(l, name, first + shared, own + fromAudiences) by {
      assert Occupied(l, name, first, own) && Occupied(l, name, shared, fromAudiences);
      OccupiedBoth(l, name, first, shared, own, fromAudiences);
    }
    assert Occupied(l, name, first + shared + scoped, own + fromAudiences + fromAgents) by {
      assert Occupied(l, name, scoped, fromAgents);
      assert forall i :: 0 <= i < |first + shared| ==> !(first + shared)[i].OfAgent?;
      OccupiedBoth(l, name, first + shared, scoped, own + fromAudiences, fromAgents);
    }
    forall s: Slot | s.name == name && At(l, s).Some? ensures s in first + shared + scoped {
      SlotListed(l, name, first, audiences, agents, s);
    }
  }

  function Previous(found: Option<Registered>): seq<Handler> {
    if found.Some? then [found.value.handler] else []
  }

  function RefreshOne(name: string, r: Registered, current: Handler -> Descriptor): Registered {
    if current(r.handler).provider.name == name then r.(descriptor := current(r.handler)) else r
  }

  function RefreshAll(m: map<string, Registered>, current: Handler -> Descriptor): map<string, Registered> {
    map n | n in m :: RefreshOne(n, m[n], current)
  }

  function RefreshScoped(m: Scoped, current: Handler -> Descriptor): Scoped {
    map o | o in m :: RefreshAll(m[o], current)
  }

  lemma {:induction false} RefreshScopedKeeps(m: Scoped, current: Handler -> Descriptor)
    requires NoEmpty(m)
    ensures NoEmpty(RefreshScoped(m, current))
  {
    forall o | o in m ensures RefreshScoped(m, current)[o] != map[] {
      var n :| n in m[o];
      assert n in RefreshScoped(m, current)[o];
    }
  }

  ghost function RefreshedAt(l: Layers, s: Slot, current: Handler -> Descriptor): Option<Registered> {
    if At(l, s).Some? then Some(RefreshOne(s.name, At(l, s).value, current)) else None
  }

  function Refreshed(l: Layers, current: Handler -> Descriptor): Layers {
    Layers(RefreshAll(l.tools, current), RefreshScoped(l.agents, current), RefreshScoped(l.audiences, current))
  }

  lemma {:induction false} RefreshedEverywhere(l: Layers, current: Handler -> Descriptor)
    ensures forall s: Slot :: At(Refreshed(l, current), s) == RefreshedAt(l, s, current)
  {
  }

  /**
   After a refresh every registration stands where it stood, under its generation and handler. It carries the
   handler's current descriptor if that still has the slot's name, and the descriptor it had otherwise.
   */
  lemma {:induction false} RefreshTakesCurrent(b: Book, current: Handler -> Descriptor, b': Book, s: Slot)
    requires Moves(b, Refresh(current), b')
    ensures At(b'.layers, s).Some? <==> At(b.layers, s).Some?
    ensures At(b.layers, s).Some? ==>
              var r, r' := At(b.layers, s).value, At(b'.layers, s).value;
              && r'.generation == r.generation && r'.handler == r.handler
              && (current(r.handler).provider.name == s.name ==> r'.descriptor == current(r.handler))
              && (current(r.handler).provider.name != s.name ==> r'.descriptor == r.descriptor)
  {
    assert At(b'.layers, s) == RefreshedAt(b.layers, s, current);
  }

  /** Re-captures every descriptor of every layer. */
  method Recapture(l: Layers, current: Handler -> Descriptor) returns (l': Layers)
    requires KeyedByName(l.tools) && NoEmpty(l.agents) && NoEmpty(l.audiences)
    ensures KeyedByName(l'.tools) && NoEmpty(l'.agents) && NoEmpty(l'.audiences)
    ensures forall s: Slot :: At(l', s) == RefreshedAt(l, s, current)
  {
    l' := Refreshed(l, current);
    RefreshedEverywhere(l, current);
    RefreshScopedKeeps(l.agents, current);
    RefreshScopedKeeps(l.audiences, current);
  }

  predicate AnyContains(m: Scoped, name: string) {
    exists o :: o in m && name in m[o]
  }

  class ToolRegistry {
    var tools: map<string, Registered>
    var agentTools: Scoped
    var audienceTools: Scoped
    var providerSpecs: seq<ProviderSpec>
    var nextGeneration: Generation

    ghost var issued: map<Generation, Issue>
    ghost var handedBack: set<Generation>

    ghost function Value(): Layers
      reads this
    {
      Layers(tools, agentTools, audienceTools)
    }

    ghost function Books(): Book
      reads this
    {
      Book(Value(), issued, handedBack, nextGeneration)
    }

    ghost predicate Valid()
      reads this
    {
      && Ledger(Books())
      && NoEmpty(agentTools) && NoEmpty(audienceTools)
      && KeyedByName(tools) && SpecsMatch(tools, providerSpecs)
    }

    /** An empty registry; `counter` is where the generation counter stands. */
    constructor (counter: Generation)
      ensures Valid() && Books() == Book(Layers(map[], map[], map[]), map[], {}, counter)
    {
      tools, agentTools, audienceTools, providerSpecs := map[], map[], map[], [];
      nextGeneration := counter;
      issued, handedBack := map[], {};
    }

    /** Removes a global tool by name. */
    method DetachTool(name: string) returns (r: Option<Handler>)
      requires Valid()
      modifies this
      ensures Valid() && Moves(old(Books()), Detach(name), Books())
      ensures Given(issued, old(GenerationAt(Value(), Global(name))), if r.Some? then [r.value] else [])
      ensures r.Some? <==> old(At(Value(), Global(name))).Some?
      ensures r.None? ==> Books() == old(Books())
      ensures forall s: Slot :: At(Value(), s) == if s == Global(name) then None else old(At(Value(), s))
    {
      ghost var b := Books();
      GivenStanding(b, Global(name));
      if name !in tools {
        return None;
      }
      var removed := tools[name];
      tools := tools - {name};
      handedBack := handedBack + {removed.generation};
      ClearOne(b, Global(name), Books());
      MoveKeepsLedger(b, Detach(name), Books());
      providerSpecs := CollectSpecs(tools);
      return Some(removed.handler);
    }

    /** Registers a global tool, replacing every registration of that name in every layer. */
    method InsertPrepared(p: Prepared) returns (r: Insertion, ghost gone: seq<Slot>)
      requires Valid() && nextGeneration < U64_MAX
      modifies this
      ensures Valid() && Moves(old(Books()), Insert(p), Books())
      ensures Given(old(issued), Under(old(Books()), p.Name()), r.displaced)
      ensures r.registration == Registration(old(nextGeneration), p.descriptor)
      ensures HandedBack(old(Value()), p.Name(), gone, r.displaced)
      ensures forall s: Slot ::
                At(Value(), s) ==
                if s == Global(p.Name()) then Some(Registered(old(nextGeneration), p.descriptor, p.handler))
                else if s.name == p.Name() then None else old(At(Value(), s))
    {
      ghost var b := Books();
      var generation := nextGeneration;
      nextGeneration := generation + 1;
      var displaced;
      displaced, gone := ReplaceEverywhere(p.Name(), Registered(generation, p.descriptor, p.handler));
      GivenUnder(b, p.Name(), gone, displaced);
      issued := issued[generation := Issue(Global(p.Name()), p.handler)];
      handedBack := handedBack + Under(b, p.Name());
      PutEverywhere(b, p, Books());
      MoveKeepsLedger(b, Insert(p), Books());
      providerSpecs := CollectSpecs(tools);
      r := Insertion(Registration(generation, p.descriptor), displaced);
    }

    /** Puts `added` in the global slot and empties every other slot under the name. */
    method ReplaceEverywhere(name: string, added: Registered) returns (displaced: seq<Handler>, ghost gone: seq<Slot>)
      requires KeyedByName(tools) && added.descriptor.provider.name == name
      requires NoEmpty(agentTools) && NoEmpty(audienceTools)
      modifies this`tools, this`agentTools, this`audienceTools
      ensures KeyedByName(tools) && NoEmpty(agentTools) && NoEmpty(audienceTools)
      ensures HandedBack(old(Value()), name, gone, displaced)
      ensures forall s: Slot ::
                At(Value(), s) ==
                if s == Global(name) then Some(added) else if s.name == name then None else old(At(Value(), s))
    {
      ghost var l := Value();
      displaced := if name in tools then [tools[name].handler] else [];
      tools := tools[name := added];
      var fromAudiences, fromAgents;
      ghost var audiences, agents;
      audienceTools, fromAudiences, audiences := Purge(audienceTools, name);
      agentTools, fromAgents, agents := Purge(agentTools, name);
      ghost var first := if name in l.tools then [Global(name)] else [];
      PurgeHandsBack(l, name, first, audiences, agents, displaced, fromAudiences, fromAgents);
      gone := first + AudienceSlots(audiences, name) + AgentSlots(agents, name);
      displaced := displaced + fromAudiences + fromAgents;
    }

    /** Whether any layer, of any owner, holds the name. */
    method NameIsTaken(name: string) returns (taken: bool)
      ensures taken <==> Taken(Value(), name)
    {
      if name in tools {
        assert At(Value(), Global(name)).Some?;
        return true;
      }
      if AnyContains(agentTools, name) {
        ghost var o :| o in agentTools && name in agentTools[o];
        assert At(Value(), OfAgent(o, name)).Some?;
        return true;
      }
      if AnyContains(audienceTools, name) {
        ghost var o :| o in audienceTools && name in audienceTools[o];
        assert At(Value(), OfAudience(o, name)).Some?;
        return true;
      }
      return false;
    }

    /** Registers a global tool unless its name is taken in any layer; a rejected tool is given back untouched. */
    method TryInsertPrepared(p: Prepared) returns (r: Result<Insertion, Collision>)
      requires Valid() && (nextGeneration < U64_MAX || Taken(Value(), p.Name()))
      modifies this
      ensures Valid() && Moves(old(Books()), TryInsert(p), Books())
      ensures r.Err? <==> Taken(old(Value()), p.Name())
      ensures r.Err? ==> r.error == Collision(p.Name(), p) && Books() == old(Books())
      ensures r.Ok? ==> r.value == Insertion(Registration(old(nextGeneration), p.descriptor), [])
      ensures r.Ok? ==>
                forall s: Slot ::
                  At(Value(), s) ==
                  if s == Global(p.Name()) then Some(Registered(old(nextGeneration), p.descriptor, p.handler))
                  else old(At(Value(), s))
    {
      ghost var b := Books();
      var taken := NameIsTaken(p.Name());
      if taken {
        return Err(Collision(p.Name(), p));
      }
      if Under(b, p.Name()) != {} {
        SomethingUnder(b, p.Name());
      }
      var insertion, gone := InsertPrepared(p);
      GivenNothing(b.issued, Under(b, p.Name()), insertion.displaced);
      return Ok(insertion);
    }

    /** Registers a tool for one agent, replacing that agent's own registration of the name if it has one. */
    method InsertAgentPrepared(agent: string, p: Prepared) returns (r: Insertion)
      requires Valid() && nextGeneration < U64_MAX
      modifies this
      ensures Valid() && Moves(old(Books()), InsertFor(OfAgent(agent, p.Name()), p), Books())
      ensures Given(old(issued), old(GenerationAt(Value(), OfAgent(agent, p.Name()))), r.displaced)
      ensures r.registration == Registration(old(nextGeneration), p.descriptor)
      ensures r.displaced == Previous(old(At(Value(), OfAgent(agent, p.Name()))))
      ensures forall s: Slot ::
                At(Value(), s) ==
                if s == OfAgent(agent, p.Name()) then Some(Registered(old(nextGeneration), p.descriptor, p.handler))
                else old(At(Value(), s))
    {
      ghost var b, slot := Books(), OfAgent(agent, p.Name());
      var generation := nextGeneration;
      nextGeneration := generation + 1;
      var displaced := Previous(Inner(agentTools, agent, p.Name()));
      agentTools := Put(agentTools, agent, p.Name(), Registered(generation, p.descriptor, p.handler));
      issued := issued[generation := Issue(slot, p.handler)];
      handedBack := handedBack + GenerationAt(b.layers, slot);
      GivenStanding(b, slot);
      PutOne(b, slot, p, Books());
      MoveKeepsLedger(b, InsertFor(slot, p), Books());
      return Insertion(Registration(generation, p.descriptor), displaced);
    }

    /** Registers a tool for one audience, replacing that audience's own registration of the name if it has one. */
    method InsertAudiencePrepared(audience: string, p: Prepared) returns (r: Insertion)
      requires Valid() && nextGeneration < U64_MAX
      modifies this
      ensures Valid() && Moves(old(Books()), InsertFor(OfAudience(audience, p.Name()), p), Books())
      ensures Given(old(issued), old(GenerationAt(Value(), OfAudience(audience, p.Name()))), r.displaced)
      ensures r.registration == Registration(old(nextGeneration), p.descriptor)
      ensures r.displaced == Previous(old(At(Value(), OfAudience(audience, p.Name()))))
      ensures forall s: Slot ::
                At(Value(), s) ==
                if s == OfAudience(audience, p.Name()) then
                  Some(Registered(old(nextGeneration), p.descriptor, p.handler))
                else old(At(Value(), s))
    {
      ghost var b, slot := Books(), OfAudience(audience, p.Name());
      var generation := nextGeneration;
      nextGeneration := generation + 1;
      var displaced := Previous(Inner(audienceTools, audience, p.Name()));
      audienceTools := Put(audienceTools, audience, p.Name(), Registered(generation, p.descriptor, p.handler));
      issued := issued[generation := Issue(slot, p.handler)];
      handedBack := handedBack + GenerationAt(b.layers, slot);
      GivenStanding(b, slot);
      PutOne(b, slot, p, Books());
      MoveKeepsLedger(b, InsertFor(slot, p), Books());
      return Insertion(Registration(generation, p.descriptor), displaced);
    }

    /** Registers a tool for one audience unless the name is taken globally or by that audience. */
    method TryInsertAudiencePrepared(audience: string, p: Prepared) returns (r: Result<Insertion, Collision>)
      requires Valid() && (nextGeneration < U64_MAX || TakenFor(Value(), audience, p.Name()))
      modifies this
      ensures Valid() && Moves(old(Books()), TryInsertFor(audience, p), Books())
      ensures r.Err? <==> old(TakenFor(Value(), audience, p.Name()))
      ensures r.Err? ==> r.error == Collision(p.Name(), p) && Books() == old(Books())
      ensures r.Ok? ==> r.value == Insertion(Registration(old(nextGeneration), p.descriptor), [])
      ensures r.Ok? ==>
                forall s: Slot ::
                  At(Value(), s) ==
                  if s == OfAudience(audience, p.Name()) then
                    Some(Registered(old(nextGeneration), p.descriptor, p.handler))
                  else old(At(Value(), s))
    {
      if p.Name() in tools || Inner(audienceTools, audience, p.Name()).Some? {
        return Err(Collision(p.Name(), p));
      }
      var insertion := InsertAudiencePrepared(audience, p);
      return Ok(insertion);
    }

    /** Removes an agent's registration, only if it is the exact generation given. */
    method DetachAgentRegistration(agent: string, registration: Registration) returns (r: Option<Handler>)
      requires Valid()
      modifies this
      ensures Valid() && Moves(old(Books()), Drop(OfAgent(agent, registration.Name()), registration), Books())
      ensures Detached(old(Books()), OfAgent(agent, registration.Name()), registration.generation, Books(), r)
    {
      ghost var b, slot := Books(), OfAgent(agent, registration.Name());
      var found := Inner(agentTools, agent, registration.Name());
      if found.None? || found.value.generation != registration.generation {
        GivenNone(issued);
        return None;
      }
      agentTools := Remove(agentTools, agent, registration.Name());
      handedBack := handedBack + {registration.generation};
      DetachOne(b, slot, registration, Books());
      return Some(found.value.handler);
    }

    /** Removes an audience's registration, only if it is the exact generation given. */
    method DetachAudienceRegistration(audience: string, registration: Registration) returns (r: Option<Handler>)
      requires Valid()
      modifies this
      ensures Valid() && Moves(old(Books()), Drop(OfAudience(audience, registration.Name()), registration), Books())
      ensures Detached(old(Books()), OfAudience(audience, registration.Name()), registration.generation, Books(), r)
    {
      ghost var b, slot := Books(), OfAudience(audience, registration.Name());
      var found := Inner(audienceTools, audience, registration.Name());
      if found.None? || found.value.generation != registration.generation {
        GivenNone(issued);
        return None;
      }
      audienceTools := Remove(audienceTools, audience, registration.Name());
      handedBack := handedBack + {registration.generation};
      DetachOne(b, slot, registration, Books());
      return Some(found.value.handler);
    }

    /** Re-captures every descriptor from its handler, keeping each registration's generation and name. */
    method RefreshDescriptors(current: Handler -> Descriptor) returns (changed: bool)
      requires Valid()
      modifies this
      ensures Valid() && Moves(old(Books()), Refresh(current), Books())
      ensures changed <==> Value() != old(Value())
    {
      ghost var b := Books();
      var captured := Layers(tools, agentTools, audienceTools);
      var refreshed := Recapture(captured, current);
      changed := refreshed != captured;
      tools, agentTools, audienceTools := refreshed.tools, refreshed.agents, refreshed.audiences;
      RefreshKeepsLedger(b, current, Books());
      if changed {
        providerSpecs := CollectSpecs(tools);
      }
    }
  }

  lemma {:induction false} SomethingUnder(b: Book, name: string)
    requires Ledger(b) && Under(b, name) != {}
    ensures Taken(b.layers, name)
  {
    var g :| g in Under(b, name);
    assert Live(b, g) && Holds(b.layers, b.issued[g].slot, g);
  }

  /** Emptying `slot` on condition that it holds `generation`: what comes back, and that nothing else moves. */
  ghost predicate Detached(b: Book, slot: Slot, generation: Generation, b': Book, r: Option<Handler>) {
    var exact := Holds(b.layers, slot, generation);
    && (r.Some? <==> exact)
    && (exact ==> r.value == At(b.layers, slot).value.handler)
    && (forall s: Slot :: At(b'.layers, s) == if exact && s == slot then None else At(b.layers, s))
    && b'.issued == b.issued && b'.next == b.next
    && b'.back == b.back + (if exact then {generation} else {})
  }

  lemma {:induction false} DetachOne(b: Book, slot: Slot, registration: Registration, b': Book)
    requires Ledger(b) && Holds(b.layers, slot, registration.generation)
    requires b' == b.(layers := b'.layers, back := b.back + {registration.generation})
    requires forall s: Slot :: At(b'.layers, s) == if s == slot then None else At(b.layers, s)
    ensures Moves(b, Drop(slot, registration), b') && Ledger(b')
  {
    assert GenerationAt(b.layers, slot) * {registration.generation} == GenerationAt(b.layers, slot);
    ClearOne(b, slot, b');
    MoveKeepsLedger(b, Drop(slot, registration), b');
  }

  // ---------------------------------------------------------------- guards

  /** Keeps one agent- or audience-scoped registration live; dropping it unregisters that generation and no other. */
  class ToolGuard {
    const registry: ToolRegistry?
    const slot: Slot
    const registration: Registration
    var active: bool

    constructor (registry: ToolRegistry, slot: Slot, registration: Registration)
      requires !slot.Global? && registration.Name() == slot.name
      ensures this.registry == registry && this.slot == slot && this.registration == registration && active
    {
      this.registry, this.slot, this.registration, active := registry, slot, registration, true;
    }

    /** Runs at most once, whether called or dropped; the registry may already be gone. `detached` is let go of. */
    method Unregister() returns (removed: bool, ghost detached: Option<Handler>)
      requires registry != null ==> registry.Valid()
      requires !slot.Global? && registration.Name() == slot.name
      modifies this, registry
      ensures !active && (removed <==> detached.Some?) && (registry != null ==> registry.Valid())
      ensures registry == null || !old(active) ==> !removed
      ensures registry != null && !old(active) ==> registry.Books() == old(registry.Books())
      ensures registry != null && old(active) ==>
                && Moves(old(registry.Books()), Drop(slot, registration), registry.Books())
                && Detached(old(registry.Books()), slot, registration.generation, registry.Books(), detached)
    {
      if !active {
        return false, None;
      }
      active := false;
      if registry == null {
        return false, None;
      }
      var handler;
      match slot {
        case OfAgent(agent, _) => handler := registry.DetachAgentRegistration(agent, registration);
        case OfAudience(audience, _) => handler := registry.DetachAudienceRegistration(audience, registration);
      }
      return handler.Some?, handler;
    }
  }

  // ---------------------------------------------------------------- runs

  /** `given` are the handlers an operation hands back. */
  ghost predicate Step(b: Book, op: Op, b': Book, given: seq<Handler>) {
    WellFormed(op) && Moves(b, op, b') && Given(b.issued, Dead(b, op), given)
  }

  /** Any sequence of operations on a registry that started out empty, whoever performs them. */
  ghost predicate Run(books: seq<Book>, ops: seq<Op>, given: seq<seq<Handler>>) {
    && |books| == |ops| + 1 && |given| == |ops|
    && books[0] == Book(Layers(map[], map[], map[]), map[], {}, books[0].next)
    && forall k :: 0 <= k < |ops| ==> StepsAt(books, ops, given, k)
  }

  ghost predicate StepsAt(books: seq<Book>, ops: seq<Op>, given: seq<seq<Handler>>, k: nat)
    requires |books| == |ops| + 1 && |given| == |ops| && k < |ops|
  {
    Step(books[k], ops[k], books[k + 1], given[k])
  }

  /** Nothing already booked changes: `b'` only adds to `b`. */
  ghost predicate Extends(b: Book, b': Book) {
    && (forall g :: g in b.issued ==> g in b'.issued && b'.issued[g] == b.issued[g])
    && b.back <= b'.back && b.next <= b'.next
  }

  lemma {:induction false} MoveExtends(b: Book, op: Op, b': Book)
    requires Ledger(b) && Moves(b, op, b')
    ensures Extends(b, b')
  {
  }

  /**
   Over every run the ledger balances, no issued generation is forgotten or reissued, and none returns from the dead.
   */
  lemma {:induction false} RunKeepsLedger(books: seq<Book>, ops: seq<Op>, given: seq<seq<Handler>>, j: nat, k: nat)
    requires Run(books, ops, given) && j <= k < |books|
    ensures Ledger(books[k]) && Extends(books[j], books[k])
    decreases k
  {
    if k == 0 {
      assert Ledger(books[0]);
    } else {
      var i, b, b' := if j < k then j else k - 1, books[k - 1], books[k];
      assert Ledger(b) && Extends(books[i], b) by { RunKeepsLedger(books, ops, given, i, k - 1); }
      assert Step(b, ops[k - 1], b', given[k - 1]) by { RunStep(books, ops, given, k - 1); }
      assert Ledger(b') && Extends(b, b') by {
        MoveKeepsLedger(b, ops[k - 1], b');
        MoveExtends(b, ops[k - 1], b');
      }
      ExtendsTwice(books[i], b, b');
    }
  }

  lemma {:induction false} RunStep(books: seq<Book>, ops: seq<Op>, given: seq<seq<Handler>>, k: nat)
    requires Run(books, ops, given) && k < |ops|
    ensures Step(books[k], ops[k], books[k + 1], given[k])
  {
    assert StepsAt(books, ops, given, k);
  }

  lemma {:induction false} RunFront(books: seq<Book>, ops: seq<Op>, given: seq<seq<Handler>>)
    requires Run(books, ops, given) && ops != []
    ensures var n := |ops| - 1; Run(books[..n + 1], ops[..n], given[..n])
  {
    var n := |ops| - 1;
    var books', ops', given' := books[..n + 1], ops[..n], given[..n];
    forall k | 0 <= k < n ensures StepsAt(books', ops', given', k) {
      assert StepsAt(books, ops, given, k);
    }
  }

  lemma {:induction false} RunOneMore(books: seq<Book>, ops: seq<Op>, given: seq<seq<Handler>>,
                                      op: Op, b: Book, handed: seq<Handler>)
    requires Run(books, ops, given) && Step(books[|ops|], op, b, handed)
    ensures Run(books + [b], ops + [op], given + [handed])
  {
    var books', ops', given' := books + [b], ops + [op], given + [handed];
    forall k | 0 <= k < |ops'| ensures StepsAt(books', ops', given', k) {
      if k < |ops| {
        assert StepsAt(books, ops, given, k);
      }
    }
  }

  lemma {:induction false} ExtendsTwice(a: Book, b: Book, c: Book)
    requires Extends(a, b) && Extends(b, c)
    ensures Extends(a, c)
  {
  }

  function Flatten(given: seq<seq<Handler>>): seq<Handler>
    decreases |given|
  {
    if given == [] then [] else Flatten(given[..|given| - 1]) + given[|given| - 1]
  }

  lemma {:induction false} ListsBoth(xs: seq<Generation>, ys: seq<Generation>, dead: set<Generation>,
                                     more: set<Generation>)
    requires Lists(xs, dead) && Lists(ys, more) && dead !! more
    ensures Lists(xs + ys, dead + more)
  {
    var both := xs + ys;
    forall i, j | 0 <= i < j < |both| ensures both[i] != both[j] {
      if i < |xs| <= j {
        assert both[i] == xs[i] && both[j] == ys[j - |xs|];
      }
    }
  }

  lemma {:induction false} GivenBoth(issued: map<Generation, Issue>, issued': map<Generation, Issue>,
                                     dead: set<Generation>, more: set<Generation>, given: seq<Handler>,
                                     last: seq<Handler>)
    requires Given(issued, dead, given) && Given(issued, more, last) && dead !! more
    requires forall g :: g in issued ==> g in issued' && issued'[g] == issued[g]
    ensures Given(issued', dead + more, given + last)
  {
    var xs :| Lists(xs, dead) && Handlers(issued, xs, given);
    var ys :| Lists(ys, more) && Handlers(issued, ys, last);
    ListsBoth(xs, ys, dead, more);
    HandlersBoth(issued, issued', xs, ys, given, last);
  }

  lemma {:induction false} HandlersBoth(issued: map<Generation, Issue>, issued': map<Generation, Issue>,
                                        xs: seq<Generation>, ys: seq<Generation>, given: seq<Handler>,
                                        last: seq<Handler>)
    requires Handlers(issued, xs, given) && Handlers(issued, ys, last)
    requires forall g :: g in issued ==> g in issued' && issued'[g] == issued[g]
    ensures Handlers(issued', xs + ys, given + last)
  {
  }

  lemma {:induction false} StepHandsBack(b: Book, op: Op, b': Book, given: seq<Handler>)
    requires Ledger(b) && Step(b, op, b', given)
    ensures b'.back == b.back + Dead(b, op) && b.back !! Dead(b, op)
  {
  }

  /**
   Conservation: over every run, the handlers handed back are those of the generations taken out, each exactly once,
   and (by the ledger) every other handler ever registered still stands in the slot it was registered for.
   */
  lemma {:induction false} HandedBackExactlyOnce(books: seq<Book>, ops: seq<Op>, given: seq<seq<Handler>>)
    requires Run(books, ops, given)
    ensures Given(books[|ops|].issued, books[|ops|].back, Flatten(given))
    decreases |ops|
  {
    if ops == [] {
      GivenNone(map[]);
    } else {
      var n := |ops| - 1;
      RunFront(books, ops, given);
      HandedBackExactlyOnce(books[..n + 1], ops[..n], given[..n]);
      RunKeepsLedger(books, ops, given, n, n);
      var b, b' := books[n], books[n + 1];
      RunStep(books, ops, given, n);
      StepHandsBack(b, ops[n], b', given[n]);
      MoveExtends(b, ops[n], b');
      GivenBoth(b.issued, b'.issued, b.back, Dead(b, ops[n]), Flatten(given[..n]), given[n]);
    }
  }

  lemma {:induction false} AddedIsIssued(b: Book, op: Op, b': Book, slot: Slot, tool: Prepared)
    requires Moves(b, op, b') && Added(b.layers, op) == Some(Booking(slot, tool))
    ensures b.next in b'.issued && b'.issued[b.next] == Issue(slot, tool.handler)
  {
  }

  lemma {:induction false} DropOfLive(b: Book, slot: Slot, registration: Registration)
    requires Ledger(b) && registration.generation in b.issued && b.issued[registration.generation].slot == slot
    ensures Dead(b, Drop(slot, registration)) ==
              if registration.generation in b.back then {} else {registration.generation}
  {
    var g := registration.generation;
    if Holds(b.layers, slot, g) {
      assert Stands(b, slot, At(b.layers, slot).value);
    } else {
      assert !Live(b, g);
    }
  }

  /**
   In every run, dropping the guard of a registration made earlier removes it if and only if its handler was not
   handed back before. It then hands back exactly the handler registered; otherwise the drop changes nothing.
   Either way that generation is spent, so any further drop is of the second kind.
   */
  lemma {:induction false} GuardRemovesOnlyItsOwn(books: seq<Book>, ops: seq<Op>, given: seq<seq<Handler>>,
                                                  j: nat, k: nat, slot: Slot, tool: Prepared,
                                                  registration: Registration)
    requires Run(books, ops, given) && j < k < |ops|
    requires Added(books[j].layers, ops[j]) == Some(Booking(slot, tool)) && registration.generation == books[j].next
    requires ops[k] == Drop(slot, registration)
    ensures var g, b, b' := registration.generation, books[k], books[k + 1];
            && given[k] == (if g in b.back then [] else [tool.handler])
            && (forall s: Slot :: At(b'.layers, s) == if s == slot && g !in b.back then None else At(b.layers, s))
            && b'.issued == b.issued && b'.next == b.next && b'.back == b.back + {g}
  {
    var g, b, b' := registration.generation, books[k], books[k + 1];
    RunStep(books, ops, given, j);
    AddedIsIssued(books[j], ops[j], books[j + 1], slot, tool);
    RunKeepsLedger(books, ops, given, j + 1, k);
    DropOfLive(b, slot, registration);
    RunStep(books, ops, given, k);
    if g in b.back {
      GivenNothing(b.issued, Dead(b, ops[k]), given[k]);
    } else {
      GivenOnly(b.issued, g, given[k]);
      DropClears(b, slot, registration, b');
    }
  }

  lemma {:induction false} DropClears(b: Book, slot: Slot, registration: Registration, b': Book)
    requires Ledger(b) && Live(b, registration.generation) && b.issued[registration.generation].slot == slot
    requires Moves(b, Drop(slot, registration), b')
    ensures forall s: Slot :: At(b'.layers, s) == if s == slot then None else At(b.layers, s)
  {
    DropOfLive(b, slot, registration);
    assert Holds(b.layers, slot, registration.generation);
    forall s: Slot ensures At(b'.layers, s) == if s == slot then None else At(b.layers, s) {
      if Holds(b.layers, s, registration.generation) {
        GenerationsAreUnique(b, s, slot);
      }
    }
  }

  /** One operation, performed by the program. */
  method Perform(registry: ToolRegistry, op: Op) returns (ghost given: seq<Handler>)
    requires registry.Valid() && WellFormed(op) && registry.nextGeneration < U64_MAX
    modifies registry
    ensures registry.Valid() && Step(old(registry.Books()), op, registry.Books(), given)
  {
    ghost var b := registry.Books();
    GivenNone(b.issued);
    match op {
      case Insert(tool) =>
        var r, gone := registry.InsertPrepared(tool);
        given := r.displaced;
      case TryInsert(tool) =>
        var r := registry.TryInsertPrepared(tool);
        given := [];
      case InsertFor(slot, tool) =>
        given := PerformInsertFor(registry, slot, tool);
      case TryInsertFor(audience, tool) =>
        var r := registry.TryInsertAudiencePrepared(audience, tool);
        given := [];
      case Detach(name) =>
        var r := registry.DetachTool(name);
        given := if r.Some? then [r.value] else [];
      case Drop(slot, registration) =>
        given := PerformDrop(registry, slot, registration);
      case Refresh(current) =>
        var r := registry.RefreshDescriptors(current);
        given := [];
      case Elsewhere(next) =>
        registry.nextGeneration := if next < registry.nextGeneration then registry.nextGeneration else next;
        MoveKeepsLedger(b, op, registry.Books());
        given := [];
    }
  }

  method PerformInsertFor(registry: ToolRegistry, slot: Slot, tool: Prepared) returns (ghost given: seq<Handler>)
    requires registry.Valid() && !slot.Global? && tool.Name() == slot.name && registry.nextGeneration < U64_MAX
    modifies registry
    ensures registry.Valid() && Step(old(registry.Books()), InsertFor(slot, tool), registry.Books(), given)
  {
    var r;
    match slot {
      case OfAgent(agent, _) => r := registry.InsertAgentPrepared(agent, tool);
      case OfAudience(audience, _) => r := registry.InsertAudiencePrepared(audience, tool);
    }
    given := r.displaced;
  }

  /** Lets go of a guard of `registration`. */
  method PerformDrop(registry: ToolRegistry, slot: Slot, registration: Registration) returns (ghost given: seq<Handler>)
    requires registry.Valid() && !slot.Global? && registration.Name() == slot.name
    modifies registry
    ensures registry.Valid() && Step(old(registry.Books()), Drop(slot, registration), registry.Books(), given)
  {
    ghost var b := registry.Books();
    var guard := new ToolGuard(registry, slot, registration);
    var removed, handler := guard.Unregister();
    given := if removed then [handler.value] else [];
    GivenDropped(b, slot, registration);
  }

  lemma {:induction false} GivenDropped(b: Book, slot: Slot, registration: Registration)
    requires Ledger(b)
    ensures Given(b.issued, Dead(b, Drop(slot, registration)),
                  if Holds(b.layers, slot, registration.generation) then [At(b.layers, slot).value.handler] else [])
  {
    if Holds(b.layers, slot, registration.generation) {
      assert GenerationAt(b.layers, slot) * {registration.generation} == GenerationAt(b.layers, slot);
      GivenStanding(b, slot);
    } else {
      assert GenerationAt(b.layers, slot) * {registration.generation} == {};
      GivenNone(b.issued);
    }
  }

  /**
   Any sequence of operations the program performs on a new registry is a run, and it ends where the run ends.
   Nothing takes the counter shared by all registries past `limit` from elsewhere.
   */
  method PerformAll(counter: Generation, ops: seq<Op>, ghost limit: Generation)
    returns (registry: ToolRegistry, ghost books: seq<Book>, ghost given: seq<seq<Handler>>)
    requires counter <= limit && limit + |ops| <= U64_MAX
    requires forall k :: 0 <= k < |ops| ==> WellFormed(ops[k]) && (ops[k].Elsewhere? ==> ops[k].next <= limit)
    ensures fresh(registry) && registry.Valid()
    ensures Run(books, ops, given) && books[|ops|] == registry.Books()
  {
    registry := new ToolRegistry(counter);
    books, given := [registry.Books()], [];
    for k := 0 to |ops|
      invariant registry.Valid() && registry.nextGeneration <= limit + k
      invariant Run(books, ops[..k], given) && books[k] == registry.Books()
    {
      ghost var handed := Perform(registry, ops[k]);
      RunOneMore(books, ops[..k], given, ops[k], registry.Books(), handed);
      books, given := books + [registry.Books()], given + [handed];
      assert ops[..k + 1] == ops[..k] + [ops[k]];
    }
    assert ops[..|ops|] == ops;
  }
}
