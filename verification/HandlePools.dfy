/** The pools of stream and event handles made in advance (cuda_client.cpp). The
    server makes handles in batches; a batch is kept only if no discard came between
    its request and its arrival. Handles are numbered in the order the server makes
    them, so that a handle value the driver uses again is another handle here. */
module HandlePools {

  /** A context on a route. A context belongs to one device. */
  datatype Owner = Owner(route: nat, context: nat)

  /** Handles that can stand in for each other: one owner, and one set of flags (for a
      stream also one priority). */
  datatype Slot = Slot(owner: Owner, bucket: int)

  datatype Kind = Streams | Events

  /** A teardown: of one context, or of the primary context of a device. */
  datatype Teardown = OfContext(route: nat, context: nat) | OfDevice(route: nat, device: int)

  /** A teardown whose thread has still to discard, and how many handles had been made
      when the server executed it. */
  datatype Pending = Pending(what: Teardown, made: nat)

  datatype Place = InFlight(thread: nat) | Pooled | Given | Dropped

  /** A request for a batch; the batch, once made, is `count` handles from `first` on. */
  datatype Flight = Flight(slot: Slot, generation: nat, made: bool, first: nat, count: nat)

  datatype State = State(
    kind: Kind,
    devices: Owner -> int,
    generation: nat,
    known: set<Owner>,
    stacks: map<Slot, seq<nat>>,
    flights: map<nat, Flight>,
    pending: map<nat, Pending>,
    // What happened to each handle: its slot, the generation its batch was asked in,
    // where it is, and which have died with their context.
    born: seq<Slot>,
    asked: seq<nat>,
    place: seq<Place>,
    dead: set<nat>)

  predicate Carries(f: Flight, h: nat) { f.first <= h < f.first + f.count }

  /** What a teardown takes down on the server. */
  predicate Kills(devices: Owner -> int, t: Teardown, o: Owner) {
    match t
    case OfContext(route, context) => o.route == route && o.context == context
    case OfDevice(route, device) => o.route == route && devices(o) == device
  }

  /** What the discard after it drops; streams of a context go on every route. */
  predicate Matches(s: State, t: Teardown, o: Owner) {
    match t
    case OfContext(route, context) => o.context == context && (s.kind == Streams || o.route == route)
    case OfDevice(route, device) => o.route == route && s.devices(o) == device
  }

  function Stack(stacks: map<Slot, seq<nat>>, slot: Slot): seq<nat> {
    if slot in stacks then stacks[slot] else []
  }

  /** The handles from `lo` up to `hi` pushed, the youngest first. */
  function Push(stacks: map<Slot, seq<nat>>, born: seq<Slot>, lo: nat, hi: nat): map<Slot, seq<nat>>
    requires hi <= |born|
    decreases hi
  {
    if lo >= hi then stacks
    else Push(stacks[born[hi - 1] := Stack(stacks, born[hi - 1]) + [hi - 1]], born, lo, hi - 1)
  }

  /** Handles with one place for those in a range. */
  function Moved(place: seq<Place>, lo: nat, hi: nat, p: Place): (r: seq<Place>)
    ensures |r| == |place|
    ensures forall h :: 0 <= h < |r| ==> r[h] == if lo <= h < hi then p else place[h]
  {
    seq(|place|, h requires 0 <= h < |place| => if lo <= h < hi then p else place[h])
  }

  // ----- Steps -----

  ghost predicate Init(s: State) {
    && s.stacks == map[] && s.flights == map[] && s.pending == map[] && s.known == {}
    && s.born == [] && s.asked == [] && s.place == [] && s.dead == {} && s.generation == 0
  }

  /** Nothing pooled: the thread notes the generation and asks for a batch. */
  ghost predicate Begin(s: State, s': State, t: nat, slot: Slot) {
    && t !in s.flights
    && (if s.kind == Streams then slot.owner !in s.known else Stack(s.stacks, slot) == [])
    && s' == s.(flights := s.flights[t := Flight(slot, s.generation, false, 0, 0)])
  }

  /** The server makes the batch, all for the owner asked for; events are all alike. */
  ghost predicate Make(s: State, s': State, t: nat, slots: seq<Slot>) {
    && t in s.flights && !s.flights[t].made
    && (forall i :: 0 <= i < |slots| ==> slots[i].owner == s.flights[t].slot.owner)
    && (s.kind == Events ==> forall i :: 0 <= i < |slots| ==> slots[i] == s.flights[t].slot)
    && s' == s.(flights := s.flights[t := s.flights[t].(made := true, first := |s.born|, count := |slots|)],
                born := s.born + slots,
                asked := s.asked + seq(|slots|, i => s.flights[t].generation),
                place := s.place + seq(|slots|, i => InFlight(t)))
  }

  /** The first handle of a landing batch that is not the answer itself. */
  function Rest(s: State, f: Flight): nat { if s.kind == Events then f.first + 1 else f.first }

  function Landed(s: State, f: Flight): (r: seq<Place>)
    ensures |r| == |s.place|
    ensures forall h: nat :: h < |r| && h < Rest(s, f) && Carries(f, h) ==> r[h] == Given
    ensures forall h: nat :: h < |r| && Rest(s, f) <= h && Carries(f, h) ==>
                               r[h] == if f.generation == s.generation then Pooled else Dropped
    ensures f.count > 0 || s.kind == Streams ==> forall h: nat :: h < |r| && !Carries(f, h) ==> r[h] == s.place[h]
  {
    Moved(Moved(s.place, f.first, Rest(s, f), Given), Rest(s, f), f.first + f.count,
          if f.generation == s.generation then Pooled else Dropped)
  }

  /** The batch arrives. An event creation answers with the first handle; what is left
      is pooled if no discard came between, and otherwise dropped. */
  ghost predicate Land(s: State, s': State, t: nat) {
    && t in s.flights && s.flights[t].made
    && var f := s.flights[t];
       && (s.kind == Events ==> f.count > 0)
       && f.first + f.count <= |s.born|
       && if f.generation == s.generation then
            s' == s.(flights := s.flights - {t},
                     known := s.known + {f.slot.owner},
                     stacks := Push(s.stacks, s.born, Rest(s, f), f.first + f.count),
                     place := Landed(s, f))
          else
            s' == s.(flights := s.flights - {t}, place := Landed(s, f))
  }

  /** The request fails; what it may have made is never claimed. */
  ghost predicate Fail(s: State, s': State, t: nat) {
    && t in s.flights
    && var f := s.flights[t];
       s' == s.(flights := s.flights - {t}, place := Moved(s.place, f.first, f.first + f.count, Dropped))
  }

  /** A creation answered from the pool. */
  ghost predicate Take(s: State, s': State, slot: Slot, h: nat) {
    && Stack(s.stacks, slot) != [] && h == Stack(s.stacks, slot)[|Stack(s.stacks, slot)| - 1]
    && s' == s.(stacks := s.stacks[slot := Stack(s.stacks, slot)[..|Stack(s.stacks, slot)| - 1]],
                place := Moved(s.place, h, h + 1, Given))
  }

  /** The server tears a context down; the thread that asked for it discards next. */
  ghost predicate Destroy(s: State, s': State, t: nat, d: Teardown) {
    && t !in s.pending
    && s' == s.(pending := s.pending[t := Pending(d, |s.born|)],
                dead := s.dead + (set h | 0 <= h < |s.born| && Kills(s.devices, d, s.born[h].owner)))
  }

  ghost predicate Discard(s: State, s': State, t: nat) {
    && t in s.pending && |s.place| == |s.born|
    && var d := s.pending[t].what;
       s' == s.(generation := s.generation + 1,
                pending := s.pending - {t},
                known := (set o | o in s.known && !Matches(s, d, o)),
                stacks := (map slot | slot in s.stacks && !Matches(s, d, slot.owner) :: s.stacks[slot]),
                place := seq(|s.place|, h requires 0 <= h < |s.place| =>
                               if s.place[h] == Pooled && Matches(s, d, s.born[h].owner) then Dropped else s.place[h]))
  }

  ghost predicate Step(s: State, s': State) {
    || (exists t, slot :: Begin(s, s', t, slot))
    || (exists t, slots :: Make(s, s', t, slots))
    || (exists t :: Land(s, s', t))
    || (exists t :: Fail(s, s', t))
    || (exists slot, h :: Take(s, s', slot, h))
    || (exists t, d :: Destroy(s, s', t, d))
    || (exists t :: Discard(s, s', t))
  }

  ghost predicate StepAt(run: seq<State>, i: nat) { i + 1 < |run| && Step(run[i], run[i + 1]) }

  ghost predicate Run(run: seq<State>) {
    run != [] && Init(run[0]) && forall i: nat :: i + 1 < |run| ==> StepAt(run, i)
  }

  // ----- The order of handing out -----

  /** The handles of a slot from `lo` up to `hi`, oldest first. */
  function Of(born: seq<Slot>, lo: nat, hi: nat, slot: Slot): seq<nat>
    requires hi <= |born|
    decreases hi
  {
    if lo >= hi then []
    else Of(born, lo, hi - 1, slot) + if born[hi - 1] == slot then [hi - 1] else []
  }

  /** A batch as it comes to lie on a stack, the youngest at the bottom. */
  function StackOrder(q: seq<nat>): seq<nat> { if q == [] then [] else [q[|q| - 1]] + StackOrder(q[..|q| - 1]) }

  lemma StackOrderLast(stack: seq<nat>, older: seq<nat>, last: nat)
    ensures stack + [last] + StackOrder(older) == stack + StackOrder(older + [last])
    ensures older + [] == older
  {
    assert (older + [last])[..|older|] == older;
  }

  lemma PushedOne(stacks: map<Slot, seq<nat>>, born: seq<Slot>, lo: nat, hi: nat, slot: Slot)
    requires lo < hi <= |born|
    ensures var next := stacks[born[hi - 1] := Stack(stacks, born[hi - 1]) + [hi - 1]];
            Stack(next, slot) + StackOrder(Of(born, lo, hi - 1, slot)) == Stack(stacks, slot) + StackOrder(Of(born, lo, hi, slot))
  {
    StackOrderLast(Stack(stacks, slot), Of(born, lo, hi - 1, slot), hi - 1);
  }

  /** Pushing puts each slot's part of the batch on its stack in reverse, */
  lemma {:induction false} PushAppends(stacks: map<Slot, seq<nat>>, born: seq<Slot>, lo: nat, hi: nat, slot: Slot)
    requires hi <= |born|
    ensures Stack(Push(stacks, born, lo, hi), slot) == Stack(stacks, slot) + StackOrder(Of(born, lo, hi, slot))
    decreases hi
  {
    if lo >= hi {
      assert Stack(stacks, slot) + [] == Stack(stacks, slot);
    } else {
      PushAppends(stacks[born[hi - 1] := Stack(stacks, born[hi - 1]) + [hi - 1]], born, lo, hi - 1, slot);
      PushedOne(stacks, born, lo, hi, slot);
    }
  }

  lemma {:induction false} StackOrderAt(q: seq<nat>, k: nat)
    requires k < |q|
    ensures |StackOrder(q)| == |q| && StackOrder(q)[k] == q[|q| - 1 - k]
  {
    if k > 0 { StackOrderAt(q[..|q| - 1], k - 1); }
    else if |q| > 1 { StackOrderAt(q[..|q| - 1], 0); }
  }

  /** so that taking from the end hands them out in the order they were made. */
  lemma HandedInOrder(stacks: map<Slot, seq<nat>>, born: seq<Slot>, lo: nat, hi: nat, slot: Slot, k: nat)
    requires hi <= |born| && k < |Of(born, lo, hi, slot)|
    ensures var stack := Stack(Push(stacks, born, lo, hi), slot);
            k < |stack| && stack[|stack| - 1 - k] == Of(born, lo, hi, slot)[k]
  {
    var batch := Of(born, lo, hi, slot);
    PushAppends(stacks, born, lo, hi, slot);
    StackOrderAt(batch, |batch| - 1 - k);
  }

  /** `Of` lists exactly the slot's handles, ascending. */
  lemma {:induction false} OfIsExact(born: seq<Slot>, lo: nat, hi: nat, slot: Slot)
    requires hi <= |born|
    ensures forall h: nat :: h in Of(born, lo, hi, slot) <==> lo <= h < hi && born[h] == slot
    ensures forall i, j :: 0 <= i < j < |Of(born, lo, hi, slot)| ==> Of(born, lo, hi, slot)[i] < Of(born, lo, hi, slot)[j]
    decreases hi
  {
    if lo < hi {
      OfIsExact(born, lo, hi - 1, slot);
      var older := Of(born, lo, hi - 1, slot);
      forall i | 0 <= i < |older|
        ensures older[i] < hi - 1
      {
        assert older[i] in older;
      }
    }
  }

  // ----- The invariant -----

  predicate Distinct(q: seq<nat>) { forall i, j :: 0 <= i < j < |q| ==> q[i] != q[j] }

  predicate OnStack(stacks: map<Slot, seq<nat>>, slot: Slot, h: nat) { h in Stack(stacks, slot) }

  predicate IsAt(place: seq<Place>, h: nat, p: Place) { h < |place| && place[h] == p }

  /** A handle is pooled exactly when it is on the stack of its slot, once. */
  ghost predicate StacksOk(stacks: map<Slot, seq<nat>>, born: seq<Slot>, place: seq<Place>) {
    && |place| == |born|
    && (forall slot: Slot :: Distinct(Stack(stacks, slot)))
    && (forall slot: Slot, h: nat :: OnStack(stacks, slot, h) ==> IsAt(place, h, Pooled) && born[h] == slot)
    && (forall h: nat :: IsAt(place, h, Pooled) ==> OnStack(stacks, born[h], h))
  }

  predicate Flies(flights: map<nat, Flight>, t: nat, h: nat) { t in flights && Carries(flights[t], h) }

  /** A handle is in flight exactly when the request of that thread made it. */
  ghost predicate FlightsOk(flights: map<nat, Flight>, generation: nat, asked: seq<nat>, place: seq<Place>) {
    && |place| == |asked|
    && (forall t: nat :: t in flights ==>
                           && flights[t].first + flights[t].count <= |place|
                           && flights[t].generation <= generation
                           && (!flights[t].made ==> flights[t].count == 0))
    && (forall t: nat, h: nat :: Flies(flights, t, h) <==> IsAt(place, h, InFlight(t)))
    && (forall t: nat, h: nat :: Flies(flights, t, h) ==> h < |asked| && asked[h] == flights[t].generation)
  }

  /** A teardown still to be discarded took the handle down with its context. */
  ghost predicate Doomed(s: State, h: nat) {
    exists t :: t in s.pending && TakesDown(s, t, h)
  }

  predicate TakesDown(s: State, t: nat, h: nat)
    requires t in s.pending
  {
    h < s.pending[t].made && h < |s.born| && Kills(s.devices, s.pending[t].what, s.born[h].owner)
  }

  /** A dead handle that could still be handed out, now or once its batch lands. */
  predicate Lingers(s: State, h: nat) {
    && h in s.dead && h < |s.place|
    && match s.place[h]
       case Pooled => true
       case InFlight(t) => t in s.flights && s.flights[t].generation == s.generation
       case Given => false
       case Dropped => false
  }

  /** A handle that died with its context lingers only while the discard that will
      drop it is on its way; and what a pending teardown took down is dead. */
  ghost predicate DeadOk(s: State) {
    && |s.place| == |s.born|
    && (forall h: nat :: h in s.dead ==> h < |s.born|)
    && (forall h: nat :: h < |s.born| && Lingers(s, h) ==> Doomed(s, h))
    && (forall t, h: nat :: t in s.pending && TakesDown(s, t, h) ==> h in s.dead)
    && (forall t :: t in s.pending ==> s.pending[t].made <= |s.born|)
  }

  ghost predicate Inv(s: State) {
    StacksOk(s.stacks, s.born, s.place) && FlightsOk(s.flights, s.generation, s.asked, s.place) && DeadOk(s)
  }

  // ----- Every step keeps it -----

  ghost predicate SamePending(s: State, s': State) {
    s'.kind == s.kind && s'.devices == s.devices && s'.pending == s.pending
  }

  /** Steps that let no dead handle linger anew. */
  lemma KeepsDead(s: State, s': State)
    requires DeadOk(s) && SamePending(s, s') && |s.born| <= |s'.born| == |s'.place| && s'.dead == s.dead
    requires forall h: nat :: h < |s.born| ==> s'.born[h] == s.born[h]
    requires forall h: nat :: h < |s.born| && Lingers(s', h) ==> Lingers(s, h)
    ensures DeadOk(s')
  {
    forall h: nat | h < |s'.born| && Lingers(s', h)
      ensures Doomed(s', h)
    {
      assert h in s.dead && Lingers(s, h);
      var t :| t in s.pending && TakesDown(s, t, h);
      assert TakesDown(s', t, h);
    }
    forall t, h: nat | t in s'.pending && TakesDown(s', t, h)
      ensures h in s'.dead
    {
      assert TakesDown(s, t, h);
    }
  }

  /** Handles that leave a flight, or come new, do not disturb the stacks. */
  lemma KeepsStacks(stacks: map<Slot, seq<nat>>, born: seq<Slot>, place: seq<Place>, born': seq<Slot>, place': seq<Place>)
    requires StacksOk(stacks, born, place) && |born| <= |born'| == |place'|
    requires forall h: nat :: h < |born| ==> born'[h] == born[h]
    requires forall h: nat :: IsAt(place', h, Pooled) <==> IsAt(place, h, Pooled)
    ensures StacksOk(stacks, born', place')
  {
  }

  lemma BeginKeeps(s: State, s': State, t: nat, slot: Slot)
    requires Inv(s) && Begin(s, s', t, slot)
    ensures Inv(s')
  {
    forall u: nat, h: nat
      ensures Flies(s'.flights, u, h) <==> Flies(s.flights, u, h)
    {
    }
    assert FlightsOk(s'.flights, s'.generation, s'.asked, s'.place);
    forall h: nat | h < |s.born| && Lingers(s', h)
      ensures Lingers(s, h)
    {
      assert s.place[h].InFlight? ==> Flies(s.flights, s.place[h].thread, h);
    }
    KeepsDead(s, s');
  }

  lemma MakeKeeps(s: State, s': State, t: nat, slots: seq<Slot>)
    requires Inv(s) && Make(s, s', t, slots)
    ensures Inv(s')
  {
    forall h: nat, p: Place
      ensures IsAt(s'.place, h, p) <==> IsAt(s.place, h, p) || (|s.place| <= h < |s'.place| && p == InFlight(t))
    {
    }
    KeepsStacks(s.stacks, s.born, s.place, s'.born, s'.place);
    MakeFlights(s, s', t, slots);
    KeepsDead(s, s');
  }

  lemma MakeFlights(s: State, s': State, t: nat, slots: seq<Slot>)
    requires Inv(s) && Make(s, s', t, slots)
    ensures FlightsOk(s'.flights, s'.generation, s'.asked, s'.place)
  {
    forall u: nat, h: nat
      ensures Flies(s'.flights, u, h) <==> IsAt(s'.place, h, InFlight(u))
      ensures Flies(s'.flights, u, h) ==> h < |s'.asked| && s'.asked[h] == s'.flights[u].generation
    {
      assert !Flies(s.flights, t, h);
      assert Flies(s.flights, u, h) <==> IsAt(s.place, h, InFlight(u));
    }
  }

  lemma PushOne(stacks: map<Slot, seq<nat>>, to: Slot, last: nat, slot: Slot)
    requires Distinct(Stack(stacks, slot)) && !OnStack(stacks, slot, last)
    ensures var next := stacks[to := Stack(stacks, to) + [last]];
            && Distinct(Stack(next, slot))
            && forall h: nat :: OnStack(next, slot, h) <==> OnStack(stacks, slot, h) || (h == last && to == slot)
  {
    var next := stacks[to := Stack(stacks, to) + [last]];
    if to == slot {
      assert Stack(next, slot) == Stack(stacks, slot) + [last];
    } else {
      assert Stack(next, slot) == Stack(stacks, slot);
    }
  }

  /** Pushing adds to each stack exactly the slot's handles. */
  lemma {:induction false} PushContents(stacks: map<Slot, seq<nat>>, born: seq<Slot>, lo: nat, hi: nat, slot: Slot)
    requires hi <= |born| && Distinct(Stack(stacks, slot))
    requires forall h: nat :: OnStack(stacks, slot, h) ==> !(lo <= h < hi)
    ensures Distinct(Stack(Push(stacks, born, lo, hi), slot))
    ensures forall h: nat :: OnStack(Push(stacks, born, lo, hi), slot, h) <==>
                               OnStack(stacks, slot, h) || (lo <= h < hi && born[h] == slot)
    decreases hi
  {
    if lo < hi {
      PushOne(stacks, born[hi - 1], hi - 1, slot);
      PushContents(stacks[born[hi - 1] := Stack(stacks, born[hi - 1]) + [hi - 1]], born, lo, hi - 1, slot);
    }
  }

  lemma PushKeepsStacks(stacks: map<Slot, seq<nat>>, born: seq<Slot>, place: seq<Place>, place': seq<Place>, lo: nat, hi: nat)
    requires StacksOk(stacks, born, place) && hi <= |born| && |place'| == |place|
    requires forall h: nat :: lo <= h < hi ==> !IsAt(place, h, Pooled)
    requires forall h: nat :: IsAt(place', h, Pooled) <==> IsAt(place, h, Pooled) || lo <= h < hi
    ensures StacksOk(Push(stacks, born, lo, hi), born, place')
  {
    var after := Push(stacks, born, lo, hi);
    forall slot: Slot
      ensures Distinct(Stack(after, slot))
      ensures forall h: nat :: OnStack(after, slot, h) <==> OnStack(stacks, slot, h) || (lo <= h < hi && born[h] == slot)
    {
      PushContents(stacks, born, lo, hi, slot);
    }
  }

  /** A flight that ends takes its handles out of the air. */
  lemma EndFlight(flights: map<nat, Flight>, generation: nat, asked: seq<nat>, place: seq<Place>, t: nat, place': seq<Place>)
    requires FlightsOk(flights, generation, asked, place) && t in flights && |place'| == |place|
    requires forall h: nat :: h < |place| && !Carries(flights[t], h) ==> place'[h] == place[h]
    requires forall h: nat :: Carries(flights[t], h) && h < |place| ==> !place'[h].InFlight?
    ensures FlightsOk(flights - {t}, generation, asked, place')
  {
    forall u: nat, h: nat
      ensures Flies(flights - {t}, u, h) <==> IsAt(place', h, InFlight(u))
      ensures Flies(flights - {t}, u, h) ==> Flies(flights, u, h)
    {
      assert Flies(flights, u, h) <==> IsAt(place, h, InFlight(u));
      assert Flies(flights, t, h) <==> IsAt(place, h, InFlight(t));
    }
  }

  lemma LandKeeps(s: State, s': State, t: nat)
    requires Inv(s) && Land(s, s', t)
    ensures Inv(s')
  {
    var f := s.flights[t];
    forall h: nat | Carries(f, h)
      ensures IsAt(s.place, h, InFlight(t))
    {
      assert Flies(s.flights, t, h);
    }
    EndFlight(s.flights, s.generation, s.asked, s.place, t, s'.place);
    LandStacks(s, s', t);
    LandDead(s, s', t);
  }

  lemma LandedAt(s: State, f: Flight, t: nat, h: nat)
    requires s.kind == Events ==> f.count > 0
    requires forall k: nat :: Carries(f, k) ==> IsAt(s.place, k, InFlight(t))
    ensures IsAt(Landed(s, f), h, Pooled) <==>
            IsAt(s.place, h, Pooled) || (f.generation == s.generation && Rest(s, f) <= h < f.first + f.count)
    ensures Rest(s, f) <= h < f.first + f.count ==> !IsAt(s.place, h, Pooled)
  {
    if Carries(f, h) {
      assert IsAt(s.place, h, InFlight(t));
    } else if h < |s.place| {
      assert Landed(s, f)[h] == s.place[h];
    }
  }

  lemma LandStacks(s: State, s': State, t: nat)
    requires Inv(s) && Land(s, s', t)
    requires forall h: nat :: Carries(s.flights[t], h) ==> IsAt(s.place, h, InFlight(t))
    ensures StacksOk(s'.stacks, s'.born, s'.place)
  {
    var f := s.flights[t];
    forall h: nat
      ensures IsAt(Landed(s, f), h, Pooled) <==>
              IsAt(s.place, h, Pooled) || (f.generation == s.generation && Rest(s, f) <= h < f.first + f.count)
      ensures Rest(s, f) <= h < f.first + f.count ==> !IsAt(s.place, h, Pooled)
    {
      LandedAt(s, f, t, h);
    }
    if f.generation == s.generation {
      PushKeepsStacks(s.stacks, s.born, s.place, Landed(s, f), Rest(s, f), f.first + f.count);
    } else {
      KeepsStacks(s.stacks, s.born, s.place, s.born, Landed(s, f));
    }
  }

  lemma LandDead(s: State, s': State, t: nat)
    requires Inv(s) && Land(s, s', t)
    requires forall h: nat :: Carries(s.flights[t], h) ==> IsAt(s.place, h, InFlight(t))
    ensures DeadOk(s')
  {
    forall h: nat | h < |s.born| && Lingers(s', h)
      ensures Lingers(s, h)
    {
    }
    KeepsDead(s, s');
  }

  lemma FailKeeps(s: State, s': State, t: nat)
    requires Inv(s) && Fail(s, s', t)
    ensures Inv(s')
  {
    forall h: nat | Carries(s.flights[t], h)
      ensures IsAt(s.place, h, InFlight(t))
    {
      assert Flies(s.flights, t, h);
    }
    EndFlight(s.flights, s.generation, s.asked, s.place, t, s'.place);
    KeepsStacks(s.stacks, s.born, s.place, s'.born, s'.place);
    KeepsDead(s, s');
  }

  lemma TakeKeeps(s: State, s': State, slot: Slot, h: nat)
    requires Inv(s) && Take(s, s', slot, h)
    ensures Inv(s')
  {
    TakeStacks(s.stacks, s.born, s.place, slot, h);
    assert OnStack(s.stacks, slot, h);
    forall t: nat, k: nat
      ensures IsAt(s'.place, k, InFlight(t)) <==> IsAt(s.place, k, InFlight(t))
    {
    }
    assert FlightsOk(s'.flights, s'.generation, s'.asked, s'.place);
    KeepsDead(s, s');
  }

  lemma TakeStacks(stacks: map<Slot, seq<nat>>, born: seq<Slot>, place: seq<Place>, slot: Slot, h: nat)
    requires StacksOk(stacks, born, place) && Stack(stacks, slot) != []
    requires h == Stack(stacks, slot)[|Stack(stacks, slot)| - 1]
    ensures StacksOk(stacks[slot := Stack(stacks, slot)[..|Stack(stacks, slot)| - 1]], born, Moved(place, h, h + 1, Given))
  {
    var stack := Stack(stacks, slot);
    var after := stacks[slot := stack[..|stack| - 1]];
    assert OnStack(stacks, slot, h);
    forall other: Slot
      ensures Distinct(Stack(after, other))
    {
      assert Distinct(Stack(stacks, other));
    }
    forall other: Slot, k: nat
      ensures OnStack(after, other, k) <==> OnStack(stacks, other, k) && k != h
    {
      if OnStack(stacks, other, k) && k != h {
        var i :| 0 <= i < |Stack(stacks, other)| && Stack(stacks, other)[i] == k;
        assert Stack(after, other)[i] == k;
      }
    }
  }

  lemma DestroyKeeps(s: State, s': State, t: nat, d: Teardown)
    requires Inv(s) && Destroy(s, s', t, d)
    ensures Inv(s')
  {
    forall h: nat | h < |s'.born| && Lingers(s', h)
      ensures Doomed(s', h)
    {
      if h in s.dead {
        assert Lingers(s, h);
        var u :| u in s.pending && TakesDown(s, u, h);
        assert TakesDown(s', u, h);
      } else {
        assert TakesDown(s', t, h);
      }
    }
    forall u, h: nat | u in s'.pending && TakesDown(s', u, h)
      ensures h in s'.dead
    {
      assert u != t ==> TakesDown(s, u, h);
    }
  }

  lemma DiscardKeeps(s: State, s': State, t: nat)
    requires Inv(s) && Discard(s, s', t)
    ensures Inv(s')
  {
    DiscardStacks(s, s', t);
    forall u: nat, h: nat
      ensures IsAt(s'.place, h, InFlight(u)) <==> IsAt(s.place, h, InFlight(u))
    {
    }
    assert FlightsOk(s'.flights, s'.generation, s'.asked, s'.place);
    forall h: nat | h < |s'.born| && Lingers(s', h)
      ensures Doomed(s', h)
    {
      assert Lingers(s, h);
      var u :| u in s.pending && TakesDown(s, u, h);
      assert TakesDown(s', u, h);
    }
    forall u, h: nat | u in s'.pending && TakesDown(s', u, h)
      ensures h in s'.dead
    {
      assert TakesDown(s, u, h);
    }
  }

  lemma DiscardStacks(s: State, s': State, t: nat)
    requires StacksOk(s.stacks, s.born, s.place) && Discard(s, s', t)
    ensures StacksOk(s'.stacks, s'.born, s'.place)
  {
    var d := s.pending[t].what;
    forall slot: Slot
      ensures Stack(s'.stacks, slot) == if Matches(s, d, slot.owner) then [] else Stack(s.stacks, slot)
    {
    }
    forall slot: Slot, h: nat
      ensures OnStack(s'.stacks, slot, h) <==> OnStack(s.stacks, slot, h) && !Matches(s, d, slot.owner)
    {
    }
  }

  lemma StepKeeps(s: State, s': State)
    requires Inv(s) && Step(s, s')
    ensures Inv(s')
  {
    if t, slot :| Begin(s, s', t, slot) {
      BeginKeeps(s, s', t, slot);
    } else if t, slots :| Make(s, s', t, slots) {
      MakeKeeps(s, s', t, slots);
    } else if t :| Land(s, s', t) {
      LandKeeps(s, s', t);
    } else if t :| Fail(s, s', t) {
      FailKeeps(s, s', t);
    } else if slot, h :| Take(s, s', slot, h) {
      TakeKeeps(s, s', slot, h);
    } else if t, d :| Destroy(s, s', t, d) {
      DestroyKeeps(s, s', t, d);
    } else {
      var t :| Discard(s, s', t);
      DiscardKeeps(s, s', t);
    }
  }

  lemma {:induction false} RunKeepsInv(run: seq<State>, i: nat)
    requires Run(run) && i < |run|
    ensures Inv(run[i])
  {
    if i > 0 {
      RunKeepsInv(run, i - 1);
      assert StepAt(run, i - 1);
      StepKeeps(run[i - 1], run[i]);
    }
  }

  // ----- What runs guarantee -----

  /** A creation answered from the pool gets a handle of the right slot, and one that
      died with its context exactly while a thread that tore the context down after the
      handle was made is still on its way to the discard. */
  lemma TakenIsLive(run: seq<State>, i: nat, slot: Slot, h: nat)
    requires Run(run) && i + 1 < |run| && Take(run[i], run[i + 1], slot, h)
    ensures h < |run[i].born| && run[i].born[h] == slot
    ensures h in run[i].dead <==> Doomed(run[i], h)
  {
    RunKeepsInv(run, i);
    assert OnStack(run[i].stacks, slot, h);
    assert h in run[i].dead ==> Lingers(run[i], h);
  }

  /** A handle given out stays given, so it is given once. */
  lemma StepKeepsGiven(s: State, s': State, h: nat)
    requires Inv(s) && Step(s, s') && IsAt(s.place, h, Given)
    ensures IsAt(s'.place, h, Given)
  {
    if t :| Land(s, s', t) {
      assert !Flies(s.flights, t, h);
    } else if t :| Fail(s, s', t) {
      assert !Flies(s.flights, t, h);
    }
  }

  lemma {:induction false} GivenStays(run: seq<State>, i: nat, j: nat, h: nat)
    requires Run(run) && i <= j < |run| && IsAt(run[i].place, h, Given)
    ensures IsAt(run[j].place, h, Given)
    decreases j
  {
    if i < j {
      GivenStays(run, i, j - 1, h);
      RunKeepsInv(run, j - 1);
      assert StepAt(run, j - 1);
      StepKeepsGiven(run[j - 1], run[j], h);
    }
  }

  /** The step gives the handle to the program: from a pool, or as the direct answer of
      an event creation whose batch lands. */
  ghost predicate HandsOut(s: State, s': State, h: nat) {
    || (exists slot :: Take(s, s', slot, h))
    || (s.kind == Events && exists t :: Land(s, s', t) && s.flights[t].first == h)
  }

  lemma HandOutGives(s: State, s': State, h: nat)
    requires Inv(s) && HandsOut(s, s', h)
    ensures !IsAt(s.place, h, Given) && IsAt(s'.place, h, Given)
  {
    if slot :| Take(s, s', slot, h) {
      assert OnStack(s.stacks, slot, h);
    } else {
      var t :| Land(s, s', t) && s.flights[t].first == h;
      assert Flies(s.flights, t, h);
    }
  }

  /** No handle is given to the program twice. */
  lemma NeverTwice(run: seq<State>, i: nat, h: nat, j: nat, h': nat)
    requires Run(run) && i < j && j + 1 < |run|
    requires HandsOut(run[i], run[i + 1], h) && HandsOut(run[j], run[j + 1], h')
    ensures h != h'
  {
    RunKeepsInv(run, i);
    RunKeepsInv(run, j);
    HandOutGives(run[i], run[i + 1], h);
    HandOutGives(run[j], run[j + 1], h');
    GivenStays(run, i + 1, j, h);
  }

  /** What is pooled for a torn-down owner was asked for after the discard. */
  ghost predicate AskedSince(s: State, d: Teardown, generation: nat) {
    && |s.place| == |s.born| == |s.asked| && generation <= s.generation
    && forall h: nat :: IsAt(s.place, h, Pooled) && Matches(s, d, s.born[h].owner) ==> generation <= s.asked[h]
  }

  /** A handle that comes to be pooled lands, in the generation it was asked for. */
  lemma NewlyPooled(s: State, s': State, h: nat)
    requires Inv(s) && Step(s, s') && IsAt(s'.place, h, Pooled) && !IsAt(s.place, h, Pooled)
    ensures h < |s.asked| && s.asked[h] == s.generation
  {
    if t :| Land(s, s', t) {
      assert Flies(s.flights, t, h);
    } else if t, slots :| Make(s, s', t, slots) {
    } else if t :| Fail(s, s', t) {
    }
  }

  lemma StepsGrow(s: State, s': State, h: nat)
    requires Step(s, s')
    ensures s'.kind == s.kind && s'.devices == s.devices && s.generation <= s'.generation
    ensures h < |s.born| ==> h < |s'.born| && s'.born[h] == s.born[h]
    ensures h < |s.asked| ==> h < |s'.asked| && s'.asked[h] == s.asked[h]
  {
    if t, slot :| Begin(s, s', t, slot) {
    } else if t, slots :| Make(s, s', t, slots) {
    } else if t :| Land(s, s', t) {
    } else if t :| Fail(s, s', t) {
    } else if slot, k :| Take(s, s', slot, k) {
    } else if t, d :| Destroy(s, s', t, d) {
    } else {
      var t :| Discard(s, s', t);
    }
  }

  lemma StepKeepsAskedSince(s: State, s': State, d: Teardown, generation: nat)
    requires Inv(s) && Step(s, s') && AskedSince(s, d, generation)
    ensures AskedSince(s', d, generation)
  {
    StepKeeps(s, s');
    StepsGrow(s, s', 0);
    forall h: nat | IsAt(s'.place, h, Pooled) && Matches(s', d, s'.born[h].owner)
      ensures generation <= s'.asked[h]
    {
      if !IsAt(s.place, h, Pooled) { NewlyPooled(s, s', h); }
      StepsGrow(s, s', h);
    }
  }

  lemma DiscardClears(s: State, s': State, t: nat)
    requires Inv(s) && Discard(s, s', t)
    ensures AskedSince(s', s.pending[t].what, s.generation + 1)
  {
  }

  lemma {:induction false} DiscardIsFinal(run: seq<State>, i: nat, t: nat, j: nat)
    requires Run(run) && i < j < |run| && Discard(run[i], run[i + 1], t)
    ensures AskedSince(run[j], run[i].pending[t].what, run[i].generation + 1)
    decreases j
  {
    RunKeepsInv(run, i);
    if j == i + 1 {
      DiscardClears(run[i], run[j], t);
    } else {
      DiscardIsFinal(run, i, t, j - 1);
      RunKeepsInv(run, j - 1);
      assert StepAt(run, j - 1);
      StepKeepsAskedSince(run[j - 1], run[j], run[i].pending[t].what, run[i].generation + 1);
    }
  }

  /** After a discard no batch asked for before it is handed out for what was torn
      down, however long it took to arrive. */
  lemma OldBatchesNeverServe(run: seq<State>, i: nat, t: nat, j: nat, slot: Slot, h: nat)
    requires Run(run) && i < j && j + 1 < |run| && Discard(run[i], run[i + 1], t)
    requires Take(run[j], run[j + 1], slot, h) && Matches(run[j], run[i].pending[t].what, slot.owner)
    ensures h < |run[j].asked| && run[j].asked[h] > run[i].generation
  {
    DiscardIsFinal(run, i, t, j);
    RunKeepsInv(run, j);
    assert OnStack(run[j].stacks, slot, h);
  }

  /** Every handle is in one place: with one request, once on the stack of its slot,
      with the program, or dropped. */
  lemma OnePlace(run: seq<State>, i: nat, h: nat)
    requires Run(run) && i < |run| && h < |run[i].born|
    ensures h < |run[i].place|
    ensures forall slot: Slot :: OnStack(run[i].stacks, slot, h) <==> run[i].place[h] == Pooled && slot == run[i].born[h]
    ensures Distinct(Stack(run[i].stacks, run[i].born[h]))
    ensures forall t: nat :: Flies(run[i].flights, t, h) <==> run[i].place[h] == InFlight(t)
  {
    RunKeepsInv(run, i);
  }

  // ----- A dead handle -----

  const OWNER := Owner(0, 1)
  const ASKED := Slot(OWNER, 0)

  function DeadStart(): State {
    State(Streams, o => 0, 0, {}, map[], map[], map[], [], [], [], {})
  }

  /** Thread 0 fills a pool, thread 1 tears its context down, and thread 0 takes from
      the pool before thread 1 has discarded it. */
  function DeadRun(): seq<State> {
    var s0 := DeadStart();
    var s1 := s0.(flights := map[0 := Flight(ASKED, 0, false, 0, 0)]);
    var s2 := s1.(flights := map[0 := Flight(ASKED, 0, true, 0, 1)], born := [ASKED], asked := [0], place := [InFlight(0)]);
    var s3 := s2.(flights := map[], known := {OWNER}, stacks := map[ASKED := [0]], place := [Pooled]);
    var s4 := s3.(pending := map[1 := Pending(OfContext(0, 1), 1)], dead := {0});
    var s5 := s4.(stacks := map[ASKED := []], place := [Given]);
    [s0, s1, s2, s3, s4, s5]
  }

  lemma DeadBegin()
    ensures StepAt(DeadRun(), 0)
  {
    var r := DeadRun();
    assert Begin(r[0], r[1], 0, ASKED);
  }

  lemma DeadMake()
    ensures StepAt(DeadRun(), 1)
  {
    var r := DeadRun();
    assert seq(1, i => 0) == [0] && seq(1, i => InFlight(0)) == [InFlight(0)];
    assert Make(r[1], r[2], 0, [ASKED]);
  }

  lemma PushSingle(stacks: map<Slot, seq<nat>>, born: seq<Slot>, slot: Slot)
    requires stacks == map[] && born == [slot]
    ensures Push(stacks, born, 0, 1) == map[slot := [0]]
  {
    var next := stacks[slot := Stack(stacks, slot) + [0]];
    assert Stack(stacks, slot) + [0] == [0];
    assert next == map[slot := [0]];
    assert Push(next, born, 0, 0) == next;
  }

  lemma DeadLand()
    ensures StepAt(DeadRun(), 2)
  {
    var r := DeadRun();
    var f := r[2].flights[0];
    assert Landed(r[2], f) == [Pooled];
    PushSingle(r[2].stacks, r[2].born, ASKED);
    assert r[2].flights - {0} == map[];
    assert Land(r[2], r[3], 0);
  }

  lemma DeadDestroy()
    ensures StepAt(DeadRun(), 3)
  {
    var r := DeadRun();
    assert (set h | 0 <= h < |r[3].born| && Kills(r[3].devices, OfContext(0, 1), r[3].born[h].owner)) == {0};
    assert Destroy(r[3], r[4], 1, OfContext(0, 1));
  }

  lemma DeadTake()
    ensures StepAt(DeadRun(), 4) && Take(DeadRun()[4], DeadRun()[5], ASKED, 0)
  {
    var r := DeadRun();
    assert Moved(r[4].place, 0, 1, Given) == [Given];
    assert r[4].stacks[ASKED := []] == map[ASKED := []];
    assert Take(r[4], r[5], ASKED, 0);
  }

  /** A run in which a creation is answered with a handle that is dead. */
  lemma DeadHandleIsTaken()
    ensures Run(DeadRun()) && Take(DeadRun()[4], DeadRun()[5], ASKED, 0) && 0 in DeadRun()[4].dead
  {
    DeadTake();
    forall i: nat | i + 1 < |DeadRun()|
      ensures StepAt(DeadRun(), i)
    {
      DeadSteps(i);
    }
  }

  lemma DeadSteps(i: nat)
    requires i < 5
    ensures StepAt(DeadRun(), i)
  {
    if i == 0 {
      DeadBegin();
    } else if i == 1 {
      DeadMake();
    } else if i == 2 {
      DeadLand();
    } else if i == 3 {
      DeadDestroy();
    } else {
      DeadTake();
    }
  }
}
