/** Slot discipline of the dirty-range queues: no two producers share a slot, a
    published slot keeps its range until the flusher takes it, and compaction
    never discards one that is in use. */
module DirtySlots {
  import opened DirtyQueue

  /** The flusher's position on one queue: how far it has found slots ready, and
      how far it has emptied them. */
  datatype Window = Window(emptied: nat, scanned: nat)

  function WindowOf(f: Flush, i: nat, q: Queue): Window {
    if f.Flush? && f.route == i then
      match f.phase
      case Scan(_, end) => Window(q.start, end)
      case LoadFull(end) => Window(q.start, end)
      case Take(end, _, cur, _) => Window(cur, end)
      case Compact(end, _, _) => Window(end, end)
      case _ => Window(q.start, q.start)
    else Window(q.start, q.start)
  }

  ghost predicate QueueOk(s: State, i: nat, q: Queue, w: Window) {
    && |q.ranges| == |q.ready| == MAX_RANGES
    && q.start <= w.emptied <= w.scanned <= q.next <= MAX_RANGES
    && (forall j :: 0 <= j < MAX_RANGES && q.ready[j] ==>
          w.emptied <= j < q.next && Known(s, q.ranges[j]) && RouteOf(s, q.ranges[j]) == i)
    && (forall j :: w.emptied <= j < w.scanned ==> q.ready[j])
  }

  ghost predicate QueueOkAt(s: State, i: nat)
    requires i < |s.queues|
  {
    QueueOk(s, i, s.queues[i], WindowOf(s.flush, i, s.queues[i]))
  }

  ghost predicate QueuesOk(s: State) {
    forall i :: 0 <= i < |s.queues| ==> QueueOkAt(s, i)
  }

  predicate OwnsSlot(pc: Pc) { pc.Fill? || pc.Publish? }

  /** A reserved slot no flusher has passed and no other producer has filled. */
  predicate SlotFree(q: Queue, w: Window, slot: nat) {
    w.scanned <= slot < q.next && slot < |q.ready| && slot < |q.ranges| && !q.ready[slot]
  }

  predicate SlotOk(s: State, pc: Pc) {
    OwnsSlot(pc) ==>
      && Known(s, pc.r)
      && var i := RouteOf(s, pc.r);
         && SlotFree(s.queues[i], WindowOf(s.flush, i, s.queues[i]), pc.slot)
         && (pc.Publish? ==> s.queues[i].ranges[pc.slot] == pc.r)
  }

  ghost predicate SlotsOk(s: State) {
    forall t :: t in s.threads ==> SlotOk(s, s.threads[t].pc)
  }

  predicate Clash(s: State, p: Pc, q: Pc) {
    && OwnsSlot(p) && OwnsSlot(q) && p.slot == q.slot
    && Known(s, p.r) && Known(s, q.r) && RouteOf(s, p.r) == RouteOf(s, q.r)
  }

  ghost predicate SlotsDistinct(s: State) {
    forall t, u :: t in s.threads && u in s.threads && t != u ==> !Clash(s, s.threads[t].pc, s.threads[u].pc)
  }

  ghost predicate RouteBounds(s: State) {
    && (forall a :: a in s.layout ==> s.layout[a].route < |s.queues| && s.layout[a].size > 0)
    && (s.flush.Flush? && InRoute(s.flush.phase) ==> s.flush.route < |s.queues|)
    && (s.flush.Flush? && s.flush.phase.Scan? && s.flush.route < |s.queues| ==>
          s.flush.phase.end <= s.flush.phase.reserved <= s.queues[s.flush.route].next)
  }

  predicate InRoute(ph: Phase) {
    || ph.Scan? || ph.LoadFull? || ph.Take? || ph.Compact? || ph.TakeFull? || ph.ScanFull?
    || ph.ScanPortable? || ph.Send? || ph.Sent? || ph.Drop?
  }

  ghost predicate Slots(s: State) {
    QueuesOk(s) && SlotsOk(s) && SlotsDistinct(s) && RouteBounds(s)
  }

  // ----- Slots: producer steps -----

  /** A step that only touches queue `i`, with the flusher standing still. */
  lemma OneQueue(s: State, s': State, i: nat)
    requires QueuesOk(s) && i < |s.queues| && s'.layout == s.layout && s'.flush == s.flush
    requires |s'.queues| == |s.queues|
    requires forall k :: 0 <= k < |s.queues| && k != i ==> s'.queues[k] == s.queues[k]
    requires QueueOkAt(s', i)
    ensures QueuesOk(s')
  {
    forall k | 0 <= k < |s'.queues|
      ensures QueueOkAt(s', k)
    {
      if k != i { assert QueueOkAt(s, k); }
    }
  }

  lemma ReserveKeepsSlots(s: State, s': State, t: Tid, i: nat)
    requires Slots(s) && t in s.threads && s.threads[t].pc.Reserve? && ProducerStep(s, s', t)
    requires i == RouteOf(s, s.threads[t].pc.r) && s.queues[i].next < MAX_RANGES
    ensures Slots(s')
  {
    assert QueueOkAt(s, i);
    OneQueue(s, s', i);
    forall u | u in s'.threads
      ensures SlotOk(s', s'.threads[u].pc)
      ensures u != t ==> !Clash(s', s'.threads[t].pc, s'.threads[u].pc)
    {
      assert SlotOk(s, s.threads[u].pc);
    }
  }

  lemma FillKeepsSlots(s: State, s': State, t: Tid)
    requires Slots(s) && t in s.threads && s.threads[t].pc.Fill? && ProducerStep(s, s', t)
    ensures Slots(s')
  {
    var r, slot := s.threads[t].pc.r, s.threads[t].pc.slot;
    var i := RouteOf(s, r);
    assert QueueOkAt(s, i);
    assert SlotOk(s, s.threads[t].pc);
    OneQueue(s, s', i);
    forall u | u in s'.threads
      ensures SlotOk(s', s'.threads[u].pc)
      ensures u != t ==> !Clash(s', s'.threads[t].pc, s'.threads[u].pc)
    {
      assert SlotOk(s, s.threads[u].pc);
      assert u != t ==> !Clash(s, s.threads[t].pc, s.threads[u].pc);
    }
  }

  lemma PublishKeepsSlots(s: State, s': State, t: Tid)
    requires Slots(s) && t in s.threads && s.threads[t].pc.Publish? && ProducerStep(s, s', t)
    ensures Slots(s')
  {
    var r, slot := s.threads[t].pc.r, s.threads[t].pc.slot;
    var i := RouteOf(s, r);
    assert QueueOkAt(s, i);
    assert SlotOk(s, s.threads[t].pc);
    OneQueue(s, s', i);
    forall u | u in s'.threads
      ensures SlotOk(s', s'.threads[u].pc)
    {
      assert SlotOk(s, s.threads[u].pc);
      assert u != t ==> !Clash(s, s.threads[t].pc, s.threads[u].pc);
    }
  }

  /** Same slots, whatever became of full_dirty_pending. */
  predicate SameSlots(q: Queue, q': Queue) {
    q' == q.(fullPending := q'.fullPending)
  }

  /** A step that moves no window, changes no slot and gives none to a thread. */
  lemma Undisturbed(s: State, s': State)
    requires Slots(s) && RouteBounds(s') && s'.layout == s.layout && |s'.queues| == |s.queues|
    requires forall k :: 0 <= k < |s.queues| ==>
               SameSlots(s.queues[k], s'.queues[k])
               && WindowOf(s'.flush, k, s.queues[k]) == WindowOf(s.flush, k, s.queues[k])
    requires forall u :: u in s'.threads && OwnsSlot(s'.threads[u].pc) ==>
               u in s.threads && s'.threads[u].pc == s.threads[u].pc
    ensures Slots(s')
  {
    forall k | 0 <= k < |s'.queues|
      ensures QueueOkAt(s', k)
    {
      assert QueueOkAt(s, k) && SameSlots(s.queues[k], s'.queues[k]);
    }
    forall u | u in s'.threads && OwnsSlot(s'.threads[u].pc)
      ensures SlotOk(s', s'.threads[u].pc)
    {
      assert SlotOk(s, s.threads[u].pc);
      var i := RouteOf(s, s.threads[u].pc.r);
      assert SameSlots(s.queues[i], s'.queues[i]);
    }
    forall u, v | u in s'.threads && v in s'.threads && u != v
      ensures !Clash(s', s'.threads[u].pc, s'.threads[v].pc)
    {
      if OwnsSlot(s'.threads[u].pc) && OwnsSlot(s'.threads[v].pc) {
        assert !Clash(s, s.threads[u].pc, s.threads[v].pc);
      }
    }
  }

  // ----- Slots: flusher steps -----

  predicate OwnsOn(s: State, pc: Pc, i: nat) {
    OwnsSlot(pc) && Known(s, pc.r) && RouteOf(s, pc.r) == i
  }

  ghost predicate OwnersOn(s: State, s': State, i: nat) {
    forall t :: t in s.threads && OwnsOn(s, s.threads[t].pc, i) ==> SlotOk(s', s.threads[t].pc)
  }

  /** The flusher moves on; only its window on queue `i` and that queue change. */
  lemma WindowMoves(s: State, s': State, i: nat)
    requires Slots(s) && RouteBounds(s') && i < |s.queues| == |s'.queues| && s'.layout == s.layout
    requires s'.threads == s.threads
    requires s'.queues == s.queues[i := s'.queues[i]]
    requires s.flush.Flush? && s'.flush.Flush? && s.flush.route == s'.flush.route == i
    requires QueueOkAt(s', i) && OwnersOn(s, s', i)
    ensures Slots(s')
  {
    forall k | 0 <= k < |s'.queues|
      ensures QueueOkAt(s', k)
    {
      assert QueueOkAt(s, k);
    }
    forall u | u in s'.threads
      ensures SlotOk(s', s'.threads[u].pc)
    {
      assert SlotOk(s, s.threads[u].pc);
    }
  }

  lemma ScanReadyKeepsSlots(s: State, s': State, t: Tid)
    requires Slots(s) && t in s.threads && s.flush.Flush? && ScanStep(s, s', t)
    requires s.flush.phase.Scan? && s.flush.phase.end < s.flush.phase.reserved
    ensures Slots(s')
  {
    assert QueueOkAt(s, s.flush.route);
    forall u | u in s.threads
      ensures SlotOk(s, s.threads[u].pc)
    {}
    WindowMoves(s, s', s.flush.route);
  }

  lemma ScanKeepsSlots(s: State, s': State, t: Tid)
    requires Slots(s) && t in s.threads && s.flush.Flush? && ScanStep(s, s', t)
    requires !(s.flush.phase.Scan? && s.flush.phase.end < s.flush.phase.reserved)
    ensures Slots(s')
  {
    if s.flush.phase.RouteStart? && s.flush.route < |s.queues| {
      assert QueueOkAt(s, s.flush.route);
    }
    ScanBounds(s, s', t);
    Undisturbed(s, s');
  }

  lemma ScanBounds(s: State, s': State, t: Tid)
    requires RouteBounds(s) && t in s.threads && s.flush.Flush? && ScanStep(s, s', t)
    requires s.flush.phase.RouteStart? && s.flush.route < |s.queues| ==> s.queues[s.flush.route].start <= s.queues[s.flush.route].next
    ensures RouteBounds(s') && s'.queues == s.queues && s'.threads == s.threads && s'.layout == s.layout
  {
  }

  lemma TakeKeepsSlots(s: State, s': State)
    requires Slots(s) && s.flush.Flush? && s.flush.phase.Take? && TakeStep(s, s')
    ensures Slots(s')
  {
    var f := s.flush;
    if f.phase.cur < f.phase.end {
      assert QueueOkAt(s, f.route);
      forall u | u in s.threads
        ensures SlotOk(s, s.threads[u].pc)
      {}
      WindowMoves(s, s', f.route);
    } else {
      Undisturbed(s, s');
    }
  }

  lemma CompactKeepsSlots(s: State, s': State)
    requires Slots(s) && s.flush.Flush? && s.flush.phase.Compact? && TakeStep(s, s')
    ensures Slots(s')
  {
    assert QueueOkAt(s, s.flush.route);
    forall u | u in s.threads
      ensures SlotOk(s, s.threads[u].pc)
    {}
    WindowMoves(s, s', s.flush.route);
  }

  lemma CountKeepsSlots(s: State, s': State, t: Tid)
    requires Slots(s) && t in s.threads && CountStep(s, s', t) && !s'.threads[t].pc.Fill?
    ensures Slots(s')
  {
    Undisturbed(s, s');
  }

  lemma OverflowKeepsSlots(s: State, s': State, t: Tid)
    requires Slots(s) && t in s.threads && OverflowStep(s, s', t)
    ensures Slots(s')
  {
    Undisturbed(s, s');
  }

  lemma ProducerKeepsSlots(s: State, s': State, t: Tid)
    requires Slots(s) && ProducerStep(s, s', t)
    ensures Slots(s')
  {
    if s.threads[t].pc.Reserve? && s'.threads[t].pc.Fill? {
      ReserveKeepsSlots(s, s', t, RouteOf(s, s.threads[t].pc.r));
    } else if s.threads[t].pc.Fill? {
      FillKeepsSlots(s, s', t);
    } else if s.threads[t].pc.Publish? {
      PublishKeepsSlots(s, s', t);
    } else if s.threads[t].pc.Count? || s.threads[t].pc.Reserve? || s.threads[t].pc.Ticket? {
      CountKeepsSlots(s, s', t);
    } else {
      OverflowKeepsSlots(s, s', t);
    }
  }

  lemma TakeFullKeepsSlots(s: State, s': State)
    requires Slots(s) && s.flush.Flush? && s.flush.phase.TakeFull? && TakeFullStep(s, s')
    ensures Slots(s')
  {
    Undisturbed(s, s');
  }

  lemma SweepKeepsSlots(s: State, s': State, a: AllocId)
    requires Slots(s) && s.flush.Flush? && s.flush.phase.ScanFull? && SweepStep(s, s', a)
    ensures Slots(s')
  {
    Undisturbed(s, s');
  }

  lemma PortableKeepsSlots(s: State, s': State, a: AllocId)
    requires Slots(s) && s.flush.Flush? && s.flush.phase.ScanPortable? && PortableStep(s, s', a)
    ensures Slots(s')
  {
    Undisturbed(s, s');
  }

  lemma SendKeepsSlots(s: State, s': State)
    requires Slots(s) && s.flush.Flush? && SendStep(s, s')
    ensures Slots(s')
  {
    Undisturbed(s, s');
  }

  lemma DropKeepsSlots(s: State, s': State)
    requires Slots(s) && s.flush.Flush? && s.flush.phase.Drop? && DropStep(s, s')
    ensures Slots(s')
  {
    Undisturbed(s, s');
  }

  lemma FinishKeepsSlots(s: State, s': State, t: Tid)
    requires Slots(s) && t in s.threads && s.flush.Flush? && FinishStep(s, s', t)
    ensures Slots(s')
  {
    Undisturbed(s, s');
  }

  lemma FlushKeepsSlots(s: State, s': State, t: Tid, a: AllocId)
    requires Slots(s) && FlushStep(s, s', t, a)
    ensures Slots(s')
  {
    match s.flush.phase {
      case Scan(reserved, end) =>
        if end < reserved { ScanReadyKeepsSlots(s, s', t); } else { ScanKeepsSlots(s, s', t); }
      case Again | LoadEpoch | RouteStart | LoadFull(_) => ScanKeepsSlots(s, s', t);
      case Take(_, _, _, _) => TakeKeepsSlots(s, s');
      case Compact(_, _, _) => CompactKeepsSlots(s, s');
      case TakeFull(_) => TakeFullKeepsSlots(s, s');
      case ScanFull(_, _) => SweepKeepsSlots(s, s', a);
      case ScanPortable(_, _) => PortableKeepsSlots(s, s', a);
      case Send(_) | Sent(_, _) => SendKeepsSlots(s, s');
      case Drop(_, _) => DropKeepsSlots(s, s');
      case _ => FinishKeepsSlots(s, s', t);
    }
  }

  lemma LockKeepsSlots(s: State, s': State, t: Tid)
    requires Slots(s) && LockStep(s, s', t)
    ensures Slots(s')
  {
    Undisturbed(s, s');
  }

  lemma CallKeepsSlots(s: State, s': State, t: Tid, a: AllocId, r: Range)
    requires Slots(s) && CallStep(s, s', t, a, r)
    ensures Slots(s')
  {
    Undisturbed(s, s');
  }

  lemma CollectKeepsSlots(s: State, s': State, t: Tid, r: Range)
    requires Slots(s) && CollectStep(s, s', t, r)
    ensures Slots(s')
  {
    Undisturbed(s, s');
  }

  lemma ReleaseKeepsSlots(s: State, s': State, t: Tid)
    requires Slots(s) && ReleaseStep(s, s', t)
    ensures Slots(s')
  {
    Undisturbed(s, s');
  }

  lemma MoveKeepsSlots(s: State, s': State, t: Tid, a: AllocId, r: Range)
    requires Slots(s) && Move(s, s', t, a, r)
    ensures Slots(s')
  {
    if ProducerStep(s, s', t) {
      ProducerKeepsSlots(s, s', t);
    } else if FlushStep(s, s', t, a) {
      FlushKeepsSlots(s, s', t, a);
    } else if LockStep(s, s', t) {
      LockKeepsSlots(s, s', t);
    } else if ReleaseStep(s, s', t) {
      ReleaseKeepsSlots(s, s', t);
    } else if CollectStep(s, s', t, r) {
      CollectKeepsSlots(s, s', t, r);
    } else {
      CallKeepsSlots(s, s', t, a, r);
    }
  }
}
