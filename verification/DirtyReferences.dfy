/** pending_dirty_ranges counts exactly the references to an allocation: queued
    ranges, ranges and windows held by a flush, producers still filling their slot, and
    fetches. So nothing refers to an allocation that has been erased. */
module DirtyReferences {
  import opened DirtyQueue
  import opened DirtySlots

  // ----- What refers to an allocation -----

  /** The thread has counted a reference and not handed it on. */
  predicate Refers(pc: Pc, a: AllocId) {
    match pc
    case Reserve(r) => r.alloc == a
    case Fill(r, _) => r.alloc == a
    case Publish(r, _) => r.alloc == a
    case Uncount(r) => r.alloc == a
    case Holding(b) => b == a
    case _ => false
  }

  function RefThreads(threads: map<Tid, Thread>, a: AllocId): set<Tid> {
    set t | t in threads && Refers(threads[t].pc, a)
  }

  function ReadyRefs(q: Queue, a: AllocId): set<nat> {
    ReadySlots(q.ready, q.ranges, a)
  }

  function ReadySlots(ready: seq<bool>, ranges: seq<Range>, a: AllocId): set<nat> {
    set j: nat | j < |ready| && j < |ranges| && ready[j] && ranges[j].alloc == a
  }

  function CountOf(held: seq<Range>, a: AllocId): nat {
    if held == [] then 0 else (if held[0].alloc == a then 1 else 0) + CountOf(held[1..], a)
  }

  /** The ranges a flush has taken and not released. */
  function Held(f: Flush): seq<Range> {
    if f == NoFlush then []
    else
      match f.phase
      case Take(_, _, _, held) => held
      case Compact(_, _, held) => held
      case TakeFull(held) => held
      case ScanFull(held, _) => held
      case ScanPortable(held, _) => held
      case Send(held) => held
      case Sent(held, _) => held
      case Drop(held, _) => held
      case _ => []
  }

  /** Everything the flush has taken, windows of other registrations included. */
  function Taken(s: State): seq<Range> { Held(s.flush) + s.portable }

  function References(s: State, a: AllocId): nat
    requires a in s.layout && s.layout[a].route < |s.queues|
  {
    |ReadyRefs(s.queues[s.layout[a].route], a)| + |RefThreads(s.threads, a)| + CountOf(Taken(s), a)
  }

  ghost predicate Conserved(s: State)
    requires RouteBounds(s)
  {
    forall a :: a in s.layout ==> PendingOf(s, a) == References(s, a)
  }

  // ----- Conservation -----

  lemma {:induction false} CountAppend(held: seq<Range>, x: Range, a: AllocId)
    ensures CountOf(held + [x], a) == CountOf(held, a) + (if x.alloc == a then 1 else 0)
  {
    if held == [] {
      assert held + [x] == [x];
    } else {
      assert (held + [x])[1..] == held[1..] + [x];
      CountAppend(held[1..], x, a);
    }
  }

  /** One more range behind the held ones. */
  lemma {:induction false} CountMiddle(held: seq<Range>, x: Range, rest: seq<Range>, a: AllocId)
    ensures CountOf(held + [x] + rest, a) == CountOf(held + rest, a) + (if x.alloc == a then 1 else 0)
  {
    if held == [] {
      assert held + [x] + rest == [x] + rest && held + rest == rest;
      assert ([x] + rest)[1..] == rest;
    } else {
      assert (held + [x] + rest)[1..] == held[1..] + [x] + rest && (held + rest)[1..] == held[1..] + rest;
      CountMiddle(held[1..], x, rest, a);
    }
  }

  lemma {:induction false} CountPositive(held: seq<Range>, x: Range)
    requires x in held
    ensures CountOf(held, x.alloc) > 0
  {
    if held[0] != x {
      CountPositive(held[1..], x);
    }
  }

  lemma ThreadMoves(threads: map<Tid, Thread>, t: Tid, th: Thread, a: AllocId)
    requires t in threads
    ensures |RefThreads(threads[t := th], a)| ==
            |RefThreads(threads, a)| - (if Refers(threads[t].pc, a) then 1 else 0)
            + (if Refers(th.pc, a) then 1 else 0)
  {
    assert RefThreads(threads[t := th], a) ==
           RefThreads(threads, a) - {t} + (if Refers(th.pc, a) then {t} else {});
    assert t in RefThreads(threads, a) <==> Refers(threads[t].pc, a);
  }

  lemma ReadySet(q: Queue, slot: nat, a: AllocId)
    requires slot < |q.ready| == |q.ranges| && !q.ready[slot]
    ensures |ReadyRefs(q.(ready := q.ready[slot := true]), a)| ==
            |ReadyRefs(q, a)| + (if q.ranges[slot].alloc == a then 1 else 0)
  {
    assert ReadyRefs(q.(ready := q.ready[slot := true]), a) ==
           ReadyRefs(q, a) + (if q.ranges[slot].alloc == a then {slot} else {});
  }

  lemma ReadyCleared(q: Queue, slot: nat, a: AllocId)
    requires slot < |q.ready| == |q.ranges| && q.ready[slot]
    ensures |ReadyRefs(q.(ready := q.ready[slot := false]), a)| ==
            |ReadyRefs(q, a)| - (if q.ranges[slot].alloc == a then 1 else 0)
  {
    assert ReadyRefs(q.(ready := q.ready[slot := false]), a) == ReadyRefs(q, a) - {slot};
    assert slot in ReadyRefs(q, a) <==> q.ranges[slot].alloc == a;
  }

  lemma RangeChanges(q: Queue, slot: nat, r: Range, a: AllocId)
    requires slot < |q.ranges| == |q.ready| && !q.ready[slot]
    ensures ReadyRefs(q.(ranges := q.ranges[slot := r]), a) == ReadyRefs(q, a)
  {
  }

  ghost predicate SameReady(s: State, s': State, i: nat)
    requires i < |s.queues| && i < |s'.queues|
  {
    forall a :: ReadyRefs(s'.queues[i], a) == ReadyRefs(s.queues[i], a)
  }

  /** A thread moves; ready slots and held ranges stay what they were. */
  lemma ThreadConserves(s: State, s': State, t: Tid)
    requires RouteBounds(s) && Conserved(s) && RouteBounds(s')
    requires s'.layout == s.layout && |s'.queues| == |s.queues| && Taken(s') == Taken(s)
    requires forall i :: 0 <= i < |s.queues| ==> SameReady(s, s', i)
    requires t in s.threads && t in s'.threads && s'.threads == s.threads[t := s'.threads[t]]
    requires forall a :: a in s.layout ==>
               PendingOf(s', a) == PendingOf(s, a) - (if Refers(s.threads[t].pc, a) then 1 else 0)
                                   + (if Refers(s'.threads[t].pc, a) then 1 else 0)
    ensures Conserved(s')
  {
    forall a | a in s'.layout
      ensures PendingOf(s', a) == References(s', a)
    {
      ThreadMoves(s.threads, t, s'.threads[t], a);
      assert SameReady(s, s', s.layout[a].route);
    }
  }

  /** The flusher takes or releases ranges and counts them; nothing else moves. */
  lemma FlusherConserves(s: State, s': State)
    requires RouteBounds(s) && Conserved(s) && RouteBounds(s')
    requires s'.layout == s.layout && |s'.queues| == |s.queues| && s'.threads == s.threads
    requires forall i :: 0 <= i < |s.queues| ==> SameReady(s, s', i)
    requires forall a :: a in s.layout ==>
               PendingOf(s', a) - CountOf(Taken(s'), a) == PendingOf(s, a) - CountOf(Taken(s), a)
    ensures Conserved(s')
  {
    forall a | a in s'.layout
      ensures PendingOf(s', a) == References(s', a)
    {
      assert SameReady(s, s', s.layout[a].route);
      assert PendingOf(s, a) == References(s, a);
    }
  }

  /** A step of the flusher that touches no slot and no reference. */
  ghost predicate Quiet(s: State, s': State) {
    && s'.layout == s.layout && s'.threads == s.threads && s'.pending == s.pending && Taken(s') == Taken(s)
    && |s'.queues| == |s.queues|
    && forall i :: 0 <= i < |s.queues| ==> s'.queues[i].ready == s.queues[i].ready && s'.queues[i].ranges == s.queues[i].ranges
  }

  lemma QuietConserves(s: State, s': State)
    requires RouteBounds(s) && Conserved(s) && RouteBounds(s') && Quiet(s, s')
    ensures Conserved(s')
  {
    FlusherConserves(s, s');
  }

  lemma PublishConserves(s: State, s': State, t: Tid)
    requires RouteBounds(s) && Conserved(s) && t in s.threads && SlotStep(s, s', t) && RouteBounds(s')
    requires s.threads[t].pc.Publish? && SlotOk(s, s.threads[t].pc) && QueueOkAt(s, RouteOf(s, s.threads[t].pc.r))
    ensures Conserved(s')
  {
    var r, slot := s.threads[t].pc.r, s.threads[t].pc.slot;
    forall a | a in s'.layout
      ensures PendingOf(s', a) == References(s', a)
    {
      ThreadMoves(s.threads, t, s'.threads[t], a);
      if s.layout[a].route == RouteOf(s, r) {
        ReadySet(s.queues[s.layout[a].route], slot, a);
      }
    }
  }

  lemma FillConserves(s: State, s': State, t: Tid)
    requires RouteBounds(s) && Conserved(s) && t in s.threads && SlotStep(s, s', t) && RouteBounds(s')
    requires s.threads[t].pc.Fill? && SlotOk(s, s.threads[t].pc) && QueueOkAt(s, RouteOf(s, s.threads[t].pc.r))
    ensures Conserved(s')
  {
    var r, slot := s.threads[t].pc.r, s.threads[t].pc.slot;
    var i := RouteOf(s, r);
    forall a
      ensures ReadyRefs(s'.queues[i], a) == ReadyRefs(s.queues[i], a)
    {
      RangeChanges(s.queues[i], slot, r, a);
    }
    ThreadConserves(s, s', t);
  }

  lemma CountConserves(s: State, s': State, t: Tid)
    requires RouteBounds(s) && Conserved(s) && t in s.threads && CountStep(s, s', t) && RouteBounds(s')
    ensures Conserved(s')
  {
    ThreadConserves(s, s', t);
  }

  lemma OverflowConserves(s: State, s': State, t: Tid)
    requires RouteBounds(s) && Conserved(s) && t in s.threads && OverflowStep(s, s', t) && RouteBounds(s')
    ensures Conserved(s')
  {
    ThreadConserves(s, s', t);
  }

  lemma ProducerConserves(s: State, s': State, t: Tid)
    requires Slots(s) && Conserved(s) && ProducerStep(s, s', t) && RouteBounds(s')
    ensures Conserved(s')
  {
    assert SlotOk(s, s.threads[t].pc);
    if OwnsSlot(s.threads[t].pc) {
      assert QueueOkAt(s, RouteOf(s, s.threads[t].pc.r));
      if s.threads[t].pc.Fill? { FillConserves(s, s', t); } else { PublishConserves(s, s', t); }
    } else if s.threads[t].pc.Count? || s.threads[t].pc.Reserve? || s.threads[t].pc.Ticket? {
      CountConserves(s, s', t);
    } else {
      OverflowConserves(s, s', t);
    }
  }

  lemma TakeOneConserves(s: State, s': State, a: AllocId)
    requires RouteBounds(s) && Conserved(s) && s.flush.Flush? && TakeStep(s, s') && RouteBounds(s')
    requires s.flush.phase.Take? && s.flush.phase.cur < s.flush.phase.end && QueueOkAt(s, s.flush.route)
    requires a in s.layout
    ensures a in s'.layout && PendingOf(s', a) == References(s', a)
  {
    var f := s.flush;
    var x := s.queues[f.route].ranges[f.phase.cur];
    assert PendingOf(s, a) == References(s, a);
    CountMiddle(f.phase.held, x, s.portable, a);
    if s.layout[a].route == f.route {
      ReadyCleared(s.queues[f.route], f.phase.cur, a);
    } else {
      assert x.alloc != a;
    }
  }

  lemma CompactIsQuiet(s: State, s': State)
    requires s.flush.Flush? && TakeStep(s, s') && !(s.flush.phase.Take? && s.flush.phase.cur < s.flush.phase.end)
    ensures Quiet(s, s')
  {
  }

  lemma TakeConserves(s: State, s': State)
    requires RouteBounds(s) && Conserved(s) && s.flush.Flush? && TakeStep(s, s') && RouteBounds(s')
    requires s.flush.phase.Take? ==> QueueOkAt(s, s.flush.route)
    ensures Conserved(s')
  {
    if s.flush.phase.Take? && s.flush.phase.cur < s.flush.phase.end {
      forall a | a in s'.layout
        ensures PendingOf(s', a) == References(s', a)
      {
        TakeOneConserves(s, s', a);
      }
    } else {
      CompactIsQuiet(s, s');
      QuietConserves(s, s');
    }
  }

  lemma TakeFullConserves(s: State, s': State)
    requires RouteBounds(s) && Conserved(s) && s.flush.Flush? && s.flush.phase.TakeFull?
    requires TakeFullStep(s, s') && RouteBounds(s')
    ensures Conserved(s')
  {
    TakeFullIsQuiet(s, s');
    QuietConserves(s, s');
  }

  lemma TakeFullIsQuiet(s: State, s': State)
    requires s.flush.Flush? && s.flush.phase.TakeFull? && TakeFullStep(s, s')
    ensures Quiet(s, s')
  {
  }

  lemma SweepConserves(s: State, s': State, b: AllocId)
    requires RouteBounds(s) && Conserved(s) && s.flush.Flush? && s.flush.phase.ScanFull?
    requires SweepStep(s, s', b) && RouteBounds(s')
    ensures Conserved(s')
  {
    forall a | a in s.layout
      ensures PendingOf(s', a) - CountOf(Taken(s'), a) == PendingOf(s, a) - CountOf(Taken(s), a)
    {
      SweepCounts(s, s', b, a);
    }
    FlusherConserves(s, s');
  }

  lemma SweepCounts(s: State, s': State, b: AllocId, a: AllocId)
    requires s.flush.Flush? && s.flush.phase.ScanFull? && SweepStep(s, s', b)
    ensures PendingOf(s', a) - CountOf(Taken(s'), a) == PendingOf(s, a) - CountOf(Taken(s), a)
  {
    if Held(s'.flush) != Held(s.flush) {
      CountMiddle(Held(s.flush), Whole(s, b), s.portable, a);
    }
  }

  lemma DropCounts(s: State, s': State, a: AllocId)
    requires s.flush.Flush? && s.flush.phase.Drop? && DropStep(s, s')
    ensures PendingOf(s', a) - CountOf(Taken(s'), a) == PendingOf(s, a) - CountOf(Taken(s), a)
  {
    if Taken(s) != [] {
      assert Taken(s') == Taken(s)[1..];
    }
  }

  lemma PortableCounts(s: State, s': State, b: AllocId, a: AllocId)
    requires s.flush.Flush? && s.flush.phase.ScanPortable? && PortableStep(s, s', b)
    ensures PendingOf(s', a) - CountOf(Taken(s'), a) == PendingOf(s, a) - CountOf(Taken(s), a)
  {
    if s'.portable != s.portable {
      assert Taken(s') == Taken(s) + [Whole(s, b)];
      CountAppend(Taken(s), Whole(s, b), a);
    }
  }

  lemma PortableConserves(s: State, s': State, b: AllocId)
    requires RouteBounds(s) && Conserved(s) && s.flush.Flush? && s.flush.phase.ScanPortable?
    requires PortableStep(s, s', b) && RouteBounds(s')
    ensures Conserved(s')
  {
    forall a | a in s.layout
      ensures PendingOf(s', a) - CountOf(Taken(s'), a) == PendingOf(s, a) - CountOf(Taken(s), a)
    {
      PortableCounts(s, s', b, a);
    }
    FlusherConserves(s, s');
  }

  lemma DropFrame(s: State, s': State)
    requires RouteBounds(s) && s.flush.Flush? && s.flush.phase.Drop? && DropStep(s, s') && RouteBounds(s')
    ensures s'.layout == s.layout && |s'.queues| == |s.queues| && s'.threads == s.threads
    ensures forall i :: 0 <= i < |s.queues| ==> SameReady(s, s', i)
  {
  }

  lemma DropConserves(s: State, s': State)
    requires RouteBounds(s) && Conserved(s) && s.flush.Flush? && s.flush.phase.Drop?
    requires DropStep(s, s') && RouteBounds(s')
    ensures Conserved(s')
  {
    forall a | a in s.layout
      ensures PendingOf(s', a) - CountOf(Taken(s'), a) == PendingOf(s, a) - CountOf(Taken(s), a)
    {
      DropCounts(s, s', a);
    }
    DropFrame(s, s');
    FlusherConserves(s, s');
  }

  lemma SendConserves(s: State, s': State)
    requires RouteBounds(s) && Conserved(s) && s.flush.Flush? && SendStep(s, s') && RouteBounds(s')
    ensures Conserved(s')
  {
    SendIsQuiet(s, s');
    QuietConserves(s, s');
  }

  lemma SendIsQuiet(s: State, s': State)
    requires s.flush.Flush? && SendStep(s, s')
    ensures Quiet(s, s')
  {
  }

  lemma ScanConserves(s: State, s': State, t: Tid)
    requires RouteBounds(s) && Conserved(s) && t in s.threads && s.flush.Flush? && ScanStep(s, s', t) && RouteBounds(s')
    ensures Conserved(s')
  {
    ScanIsQuiet(s, s', t);
    QuietConserves(s, s');
  }

  lemma ScanIsQuiet(s: State, s': State, t: Tid)
    requires t in s.threads && s.flush.Flush? && ScanStep(s, s', t)
    ensures Quiet(s, s')
  {
  }

  lemma FinishConserves(s: State, s': State, t: Tid)
    requires RouteBounds(s) && Conserved(s) && t in s.threads && s.flush.Flush? && FinishStep(s, s', t) && RouteBounds(s')
    requires s.threads[t].pc == Flushing
    ensures Conserved(s')
  {
    ThreadConserves(s, s', t);
  }

  lemma LockConserves(s: State, s': State, t: Tid)
    requires RouteBounds(s) && Conserved(s) && LockStep(s, s', t) && RouteBounds(s')
    ensures Conserved(s')
  {
    ThreadConserves(s, s', t);
  }

  lemma CallConserves(s: State, s': State, t: Tid, a: AllocId, r: Range)
    requires RouteBounds(s) && Conserved(s) && CallStep(s, s', t, a, r) && RouteBounds(s')
    ensures Conserved(s')
  {
    CallCounts(s, s', t, a, r);
    ThreadConserves(s, s', t);
  }

  lemma CallCounts(s: State, s': State, t: Tid, a: AllocId, r: Range)
    requires CallStep(s, s', t, a, r)
    ensures s'.layout == s.layout && s'.queues == s.queues && Taken(s') == Taken(s)
    ensures t in s'.threads && s'.threads == s.threads[t := s'.threads[t]]
    ensures forall b :: PendingOf(s', b) == PendingOf(s, b) - (if Refers(s.threads[t].pc, b) then 1 else 0)
                                            + (if Refers(s'.threads[t].pc, b) then 1 else 0)
  {
  }

  lemma CollectConserves(s: State, s': State, t: Tid, r: Range)
    requires RouteBounds(s) && Conserved(s) && CollectStep(s, s', t, r) && RouteBounds(s')
    ensures Conserved(s')
  {
    ThreadConserves(s, s', t);
  }

  lemma ReleaseConserves(s: State, s': State, t: Tid)
    requires RouteBounds(s) && Conserved(s) && ReleaseStep(s, s', t) && RouteBounds(s')
    ensures Conserved(s')
  {
    ThreadConserves(s, s', t);
  }

  lemma MoveConserves(s: State, s': State, t: Tid, a: AllocId, r: Range)
    requires Slots(s) && Conserved(s) && Move(s, s', t, a, r) && RouteBounds(s')
    ensures Conserved(s')
  {
    if ProducerStep(s, s', t) {
      ProducerConserves(s, s', t);
    } else if FlushStep(s, s', t, a) {
      FlushConserves(s, s', t, a);
    } else if LockStep(s, s', t) {
      LockConserves(s, s', t);
    } else if ReleaseStep(s, s', t) {
      ReleaseConserves(s, s', t);
    } else if CollectStep(s, s', t, r) {
      CollectConserves(s, s', t, r);
    } else {
      CallConserves(s, s', t, a, r);
    }
  }

  lemma FlushConserves(s: State, s': State, t: Tid, a: AllocId)
    requires Slots(s) && Conserved(s) && FlushStep(s, s', t, a) && RouteBounds(s')
    ensures Conserved(s')
  {
    match s.flush.phase {
      case Again | LoadEpoch | RouteStart | Scan(_, _) | LoadFull(_) => ScanConserves(s, s', t);
      case Take(_, _, _, _) | Compact(_, _, _) =>
        assert QueueOkAt(s, s.flush.route);
        TakeConserves(s, s');
      case TakeFull(_) => TakeFullConserves(s, s');
      case ScanFull(_, _) => SweepConserves(s, s', a);
      case ScanPortable(_, _) => PortableConserves(s, s', a);
      case Send(_) | Sent(_, _) => SendConserves(s, s');
      case Drop(_, _) => DropConserves(s, s');
      case _ => FinishConserves(s, s', t);
    }
  }
}
