/** What a ticket at or below lupine_flushed_host_epoch means: the server has
    acknowledged contents read no earlier than that publication, in every
    interleaving of producers and flushers, failed flushes included. */
module FlushWatermark {
  import opened Options
  import opened DirtyQueue
  import opened DirtySlots
  import opened DirtyReferences
  import opened DirtyLifetimes

  predicate Covers(x: Range, r: Range) {
    x.alloc == r.alloc && x.start <= r.start && r.end <= x.end
  }

  /** The server has acknowledged contents of the range read after `time`. */
  ghost predicate Acknowledged(acks: set<Ack>, p: Publication) {
    exists a :: a in acks && Covers(a.range, p.range) && p.time <= a.readAt
  }

  /** A ready slot in [lo, hi) carries the range. */
  ghost predicate InSlots(q: Queue, r: Range, lo: int, hi: int) {
    exists j :: lo <= j < hi && 0 <= j < |q.ready| && j < |q.ranges| && q.ready[j] && q.ranges[j] == r
  }

  ghost predicate InHeld(held: seq<Range>, r: Range) {
    exists k :: 0 <= k < |held| && Covers(held[k], r)
  }

  /** A flush holds the range and will acknowledge it or restore it. */
  ghost predicate InFlight(f: Flush, p: Publication) {
    && f.Flush?
    && InHeld(Held(f), p.range)
    && match f.phase
       case Sent(_, readAt) => p.time <= readAt
       case Drop(_, ok) => !ok
       case _ => true
  }

  predicate Sweeping(f: Flush, a: AllocId) {
    f.Flush? && f.phase.ScanFull? && a in f.phase.todo
  }

  predicate Marking(s: State, k: nat)
    requires k < |s.pubs|
  {
    s.pubs[k].tid in s.threads && s.threads[s.pubs[k].tid].pc == MarkPending(s.pubs[k].range, k)
  }

  /** full_dirty stands for the range, and a flusher will find it. */
  predicate FullDirty(s: State, k: nat)
    requires k < |s.pubs| && Known(s, s.pubs[k].range)
  {
    var r := s.pubs[k].range;
    && r.alloc in s.fullDirty
    && (Marking(s, k) || s.queues[RouteOf(s, r)].fullPending || Sweeping(s.flush, r.alloc))
  }

  /** A published range is acknowledged, or somewhere a flusher will still find it. */
  ghost predicate Safe(s: State, k: nat)
    requires k < |s.pubs| && Known(s, s.pubs[k].range)
  {
    var p := s.pubs[k];
    || Acknowledged(s.acks, p)
    || InSlots(s.queues[RouteOf(s, p.range)], p.range, 0, MAX_RANGES)
    || InFlight(s.flush, p)
    || FullDirty(s, k)
  }

  predicate FullMarked(s: State, r: Range)
    requires Known(s, r)
  {
    r.alloc in s.fullDirty && s.queues[RouteOf(s, r)].fullPending
  }

  /** On the route being flushed: the flush will cover the range this time. */
  ghost predicate Due(s: State, p: Publication)
    requires Known(s, p.range) && s.flush.Flush?
  {
    var q := s.queues[RouteOf(s, p.range)];
    match s.flush.phase
    case Scan(reserved, _) =>
      Acknowledged(s.acks, p) || InSlots(q, p.range, 0, reserved) || FullMarked(s, p.range)
    case LoadFull(end) =>
      Acknowledged(s.acks, p) || InSlots(q, p.range, 0, end) || FullMarked(s, p.range)
    case Take(end, hasFull, cur, held) =>
      || Acknowledged(s.acks, p) || InSlots(q, p.range, cur, end) || InHeld(held, p.range)
      || (hasFull && FullMarked(s, p.range))
    case Compact(_, hasFull, held) =>
      Acknowledged(s.acks, p) || InHeld(held, p.range) || (hasFull && FullMarked(s, p.range))
    case TakeFull(held) =>
      Acknowledged(s.acks, p) || InHeld(held, p.range) || FullMarked(s, p.range)
    case ScanFull(held, todo) =>
      || Acknowledged(s.acks, p) || InHeld(held, p.range)
      || (p.range.alloc in s.fullDirty && p.range.alloc in todo)
    case ScanPortable(held, _) => Acknowledged(s.acks, p) || InHeld(held, p.range)
    case Send(held) => Acknowledged(s.acks, p) || InHeld(held, p.range)
    case Sent(held, readAt) =>
      Acknowledged(s.acks, p) || (InHeld(held, p.range) && p.time <= readAt)
    case Drop(_, ok) => ok ==> Acknowledged(s.acks, p)
    case _ => true
  }

  /** The flush read its epoch and is on its way through the routes. */
  predicate Counting(f: Flush) {
    f.Flush? && !f.kind.Retire? && !f.phase.Again? && !f.phase.LoadEpoch? && !f.phase.Unlock?
  }

  ghost predicate OnSchedule(s: State, p: Publication)
    requires Known(s, p.range)
  {
    Counting(s.flush) && 0 < p.ticket <= s.flush.epoch ==>
      && (RouteOf(s, p.range) < s.flush.route ==> Acknowledged(s.acks, p))
      && (RouteOf(s, p.range) == s.flush.route ==> Due(s, p))
  }

  predicate Recorded(s: State, k: nat)
    requires k < |s.pubs|
  {
    var p := s.pubs[k];
    && Known(s, p.range) && p.time <= s.clock && p.ticket <= s.epoch
    && p.tid in s.threads && p.ticket <= s.threads[p.tid].required
    && (p.ticket == 0 ==> s.threads[p.tid].pc == MarkPending(p.range, k) || s.threads[p.tid].pc == Ticket(k))
  }

  ghost predicate PubOk(s: State, k: nat)
    requires k < |s.pubs|
  {
    && Recorded(s, k)
    && (s.pubs[k].range.alloc !in s.retiring ==>
          && Safe(s, k)
          && (0 < s.pubs[k].ticket <= s.flushed ==> Acknowledged(s.acks, s.pubs[k]))
          && OnSchedule(s, s.pubs[k]))
  }

  predicate TicketOk(s: State, t: Tid, pc: Pc) {
    match pc
    case MarkPending(r, k) => k < |s.pubs| && s.pubs[k].tid == t && s.pubs[k].ticket == 0 && s.pubs[k].range == r
    case Ticket(k) => k < |s.pubs| && s.pubs[k].tid == t && s.pubs[k].ticket == 0
    case _ => true
  }

  ghost predicate Tickets(s: State) {
    forall t :: t in s.threads ==> TicketOk(s, t, s.threads[t].pc) && s.threads[t].required <= s.epoch
  }

  predicate FlushEpochs(s: State) {
    s.flush.Flush? ==>
      && s.flush.tid in s.threads
      && s.flush.epoch <= s.epoch
      && (Counting(s.flush) ==> s.flushed <= s.flush.epoch)
      && (s.flush.phase.StoreEpoch? ==> s.flush.route >= |s.queues|)
      && (s.flush.kind == Prepare && s.flush.phase == Unlock(true) ==>
            s.threads[s.flush.tid].required <= s.flushed)
  }

  ghost predicate Watermark(s: State) {
    && Tickets(s)
    && s.flushed <= s.epoch && FlushEpochs(s)
    && (forall a :: a in s.layout ==> a in s.registered || a in s.retiring)
    && (forall k :: 0 <= k < |s.pubs| ==> PubOk(s, k))
  }

  // ----- Producer steps -----

  lemma CountKeepsPub(s: State, s': State, t: Tid, k: nat)
    requires t in s.threads && CountStep(s, s', t) && k < |s.pubs| && PubOk(s, k)
    requires TicketOk(s, t, s.threads[t].pc) && s.threads[t].required <= s.epoch
    requires s.flushed <= s.epoch && (s.flush.Flush? ==> s.flush.epoch <= s.epoch)
    ensures PubOk(s', k)
  {
  }

  lemma SlotKeepsPub(s: State, s': State, t: Tid, k: nat)
    requires t in s.threads && SlotStep(s, s', t) && k < |s.pubs| && PubOk(s, k)
    requires SlotOk(s, s.threads[t].pc)
    ensures PubOk(s', k)
  {
  }

  lemma OverflowKeepsPub(s: State, s': State, t: Tid, k: nat)
    requires t in s.threads && OverflowStep(s, s', t) && k < |s.pubs| && PubOk(s, k)
    requires TicketOk(s, t, s.threads[t].pc)
    ensures PubOk(s', k)
  {
  }

  /** A publication is safe from the moment it is recorded. */
  lemma PublishIsSafe(s: State, s': State, t: Tid)
    requires t in s.threads && s.threads[t].pc.Publish? && SlotStep(s, s', t)
    requires SlotOk(s, s.threads[t].pc) && s.threads[t].required <= s.epoch
    requires QueueOkAt(s, RouteOf(s, s.threads[t].pc.r))
    ensures |s'.pubs| == |s.pubs| + 1 && PubOk(s', |s.pubs|)
  {
    var r, slot := s.threads[t].pc.r, s.threads[t].pc.slot;
    var q := s'.queues[RouteOf(s, r)];
    assert q.ready[slot] && q.ranges[slot] == r;
    assert InSlots(q, r, 0, MAX_RANGES);
  }

  lemma MarkFullIsSafe(s: State, s': State, t: Tid)
    requires t in s.threads && s.threads[t].pc.MarkFull? && OverflowStep(s, s', t)
    requires Known(s, s.threads[t].pc.r) && s.threads[t].required <= s.epoch
    ensures |s'.pubs| == |s.pubs| + 1 && PubOk(s', |s.pubs|)
  {
  }

  // ----- Flusher steps -----

  lemma SlotInBounds(s: State, p: Publication, i: nat)
    requires i < |s.queues| && QueueOkAt(s, i) && InSlots(s.queues[i], p.range, 0, MAX_RANGES)
    ensures InSlots(s.queues[i], p.range, WindowOf(s.flush, i, s.queues[i]).emptied, s.queues[i].next)
  {
    var q := s.queues[i];
    var j :| 0 <= j < MAX_RANGES && 0 <= j < |q.ready| && j < |q.ranges| && q.ready[j] && q.ranges[j] == p.range;
  }

  lemma RouteStartKeepsPub(s: State, s': State, t: Tid, k: nat)
    requires t in s.threads && s.flush.Flush? && s.flush.phase.RouteStart? && ScanStep(s, s', t)
    requires k < |s.pubs| && PubOk(s, k) && QueuesOk(s)
    requires s.pubs[k].range.alloc !in s.retiring ==> TicketOk(s, s.pubs[k].tid, s.threads[s.pubs[k].tid].pc)
    ensures PubOk(s', k)
  {
    var p := s.pubs[k];
    var i := RouteOf(s, p.range);
    if p.range.alloc !in s.retiring && s.flush.route == i {
      assert QueueOkAt(s, i);
      if InSlots(s.queues[i], p.range, 0, MAX_RANGES) {
        SlotInBounds(s, p, i);
      }
    }
  }

  lemma ScanKeepsPub(s: State, s': State, t: Tid, k: nat)
    requires t in s.threads && s.flush.Flush? && !s.flush.phase.RouteStart? && ScanStep(s, s', t)
    requires k < |s.pubs| && PubOk(s, k) && QueuesOk(s) && RouteBounds(s)
    ensures PubOk(s', k)
  {
    var p := s.pubs[k];
    var i := RouteOf(s, p.range);
    if s.flush.phase.LoadFull? && s.flush.route == i {
      assert QueueOkAt(s, i);
    }
  }

  lemma TakeKeepsPub(s: State, s': State, k: nat)
    requires s.flush.Flush? && s.flush.phase.Take? && TakeStep(s, s')
    requires k < |s.pubs| && PubOk(s, k)
    ensures PubOk(s', k)
  {
    var f := s.flush;
    var p := s.pubs[k];
    if f.phase.cur < f.phase.end {
      var held, held' := f.phase.held, s'.flush.phase.held;
      assert held'[|held|] == s.queues[f.route].ranges[f.phase.cur];
      if InHeld(held, p.range) {
        var x :| 0 <= x < |held| && Covers(held[x], p.range);
        assert held'[x] == held[x];
      }
    }
  }

  lemma CompactKeepsPub(s: State, s': State, k: nat)
    requires s.flush.Flush? && s.flush.phase.Compact? && TakeStep(s, s')
    requires k < |s.pubs| && PubOk(s, k)
    ensures PubOk(s', k)
  {
  }

  lemma TakeFullKeepsPub(s: State, s': State, k: nat)
    requires s.flush.Flush? && s.flush.phase.TakeFull? && TakeFullStep(s, s')
    requires k < |s.pubs| && PubOk(s, k)
    requires s.pubs[k].range.alloc in s.registered || s.pubs[k].range.alloc in s.retiring
    ensures PubOk(s', k)
  {
  }

  lemma SweepKeepsPub(s: State, s': State, a: AllocId, k: nat)
    requires s.flush.Flush? && s.flush.phase.ScanFull? && SweepStep(s, s', a)
    requires k < |s.pubs| && PubOk(s, k)
    requires s.pubs[k].range.alloc in s.registered || s.pubs[k].range.alloc in s.retiring
    ensures PubOk(s', k)
  {
    var p := s.pubs[k];
    var held := s.flush.phase.held;
    if s'.flush.phase.ScanFull? {
      var held' := s'.flush.phase.held;
      if InHeld(held, p.range) {
        var x :| 0 <= x < |held| && Covers(held[x], p.range);
        assert held'[x] == held[x];
      }
      if held' != held {
        assert held'[|held|] == Whole(s, a);
      }
    }
  }

  lemma PortableKeepsPub(s: State, s': State, a: AllocId, k: nat)
    requires s.flush.Flush? && s.flush.phase.ScanPortable? && PortableStep(s, s', a)
    requires k < |s.pubs| && PubOk(s, k)
    ensures PubOk(s', k)
  {
  }

  lemma SendKeepsPub(s: State, s': State, k: nat)
    requires s.flush.Flush? && SendStep(s, s')
    requires k < |s.pubs| && PubOk(s, k)
    ensures PubOk(s', k)
  {
    var p := s.pubs[k];
    if s.flush.phase.Sent? && s'.flush.phase == Drop(s.flush.phase.held, true) {
      var held, readAt := s.flush.phase.held, s.flush.phase.readAt;
      if InHeld(held, p.range) && p.time <= readAt {
        var x :| 0 <= x < |held| && Covers(held[x], p.range);
        assert Ack(held[x], readAt) in s'.acks;
      }
    }
  }

  /** One range less is held: the publication was it, or is still held. */
  lemma HeldShrinksTo(held: seq<Range>, r: Range)
    requires held != []
    ensures InHeld(held, r) <==> Covers(held[0], r) || InHeld(held[1..], r)
  {
    if InHeld(held, r) && !Covers(held[0], r) {
      var x :| 0 <= x < |held| && Covers(held[x], r);
      assert held[1..][x - 1] == held[x];
    }
    if InHeld(held[1..], r) {
      var x :| 0 <= x < |held[1..]| && Covers(held[1..][x], r);
      assert held[x + 1] == held[1..][x];
    }
  }

  lemma DropHeldKeepsPub(s: State, s': State, k: nat)
    requires s.flush.Flush? && s.flush.phase.Drop? && DropStep(s, s') && s.flush.phase.held != []
    requires k < |s.pubs| && PubOk(s, k)
    requires HeldAlive(s, s.flush.phase.held, s.flush.route)
    ensures PubOk(s', k)
  {
    var held := s.flush.phase.held;
    HeldShrinksTo(held, s.pubs[k].range);
    assert AliveOn(s, held[0], s.flush.route);
  }

  lemma DropRestKeepsPub(s: State, s': State, k: nat)
    requires s.flush.Flush? && s.flush.phase.Drop? && DropStep(s, s') && s.flush.phase.held == []
    requires k < |s.pubs| && PubOk(s, k)
    ensures PubOk(s', k)
  {
  }

  lemma FinishKeepsPub(s: State, s': State, t: Tid, k: nat)
    requires t in s.threads && s.flush.Flush? && FinishStep(s, s', t)
    requires s.threads[t].pc == Flushing
    requires s.flush.phase.StoreEpoch? ==> !s.flush.kind.Retire? && s.flush.route >= |s.queues|
    requires k < |s.pubs| && PubOk(s, k)
    ensures PubOk(s', k)
  {
  }

  // ----- Every step -----

  ghost predicate Inv(s: State) {
    Slots(s) && Conserved(s) && Lifetimes(s) && Watermark(s)
  }

  lemma ProducerKeepsPub(s: State, s': State, t: Tid, k: nat)
    requires Inv(s) && ProducerStep(s, s', t) && k < |s.pubs|
    ensures k < |s'.pubs| && PubOk(s', k)
  {
    var pc := s.threads[t].pc;
    assert TicketOk(s, t, pc) && SlotOk(s, pc) && PubOk(s, k);
    if pc.Count? || pc.Reserve? || pc.Ticket? {
      CountKeepsPub(s, s', t, k);
    } else if OwnsSlot(pc) {
      SlotKeepsPub(s, s', t, k);
    } else {
      OverflowKeepsPub(s, s', t, k);
    }
  }

  /** At most one publication is new, and it is safe. */
  lemma NewPubIsSafe(s: State, s': State, t: Tid, k: nat)
    requires Inv(s) && ProducerStep(s, s', t) && |s.pubs| <= k < |s'.pubs|
    ensures PubOk(s', k)
  {
    var pc := s.threads[t].pc;
    assert SlotOk(s, pc) && PcAlive(s, t, pc);
    if pc.Publish? {
      assert QueueOkAt(s, RouteOf(s, pc.r));
      PublishIsSafe(s, s', t);
    } else if pc.MarkFull? {
      MarkFullIsSafe(s, s', t);
    }
  }

  lemma ProducerKeepsPubs(s: State, s': State, t: Tid)
    requires Inv(s) && ProducerStep(s, s', t)
    ensures forall k :: 0 <= k < |s'.pubs| ==> PubOk(s', k)
  {
    forall k | 0 <= k < |s'.pubs|
      ensures PubOk(s', k)
    {
      if k < |s.pubs| {
        ProducerKeepsPub(s, s', t, k);
      } else {
        NewPubIsSafe(s, s', t, k);
      }
    }
  }

  lemma FlushKeepsPub(s: State, s': State, t: Tid, a: AllocId, k: nat)
    requires Inv(s) && FlushStep(s, s', t, a) && k < |s.pubs| == |s'.pubs|
    ensures PubOk(s', k)
  {
    assert PubOk(s, k);
    match s.flush.phase {
      case RouteStart =>
        assert TicketOk(s, s.pubs[k].tid, s.threads[s.pubs[k].tid].pc);
        RouteStartKeepsPub(s, s', t, k);
      case Again | LoadEpoch | Scan(_, _) | LoadFull(_) => ScanKeepsPub(s, s', t, k);
      case Take(_, _, _, _) => TakeKeepsPub(s, s', k);
      case Compact(_, _, _) => CompactKeepsPub(s, s', k);
      case TakeFull(_) => TakeFullKeepsPub(s, s', k);
      case ScanFull(_, _) => SweepKeepsPub(s, s', a, k);
      case ScanPortable(_, _) => PortableKeepsPub(s, s', a, k);
      case Send(_) | Sent(_, _) => SendKeepsPub(s, s', k);
      case Drop(held, _) =>
        if held != [] { DropHeldKeepsPub(s, s', k); } else { DropRestKeepsPub(s, s', k); }
      case _ => FinishKeepsPub(s, s', t, k);
    }
  }

  lemma LockKeepsPub(s: State, s': State, t: Tid, k: nat)
    requires LockStep(s, s', t) && k < |s.pubs| && PubOk(s, k)
    ensures PubOk(s', k)
  {
  }

  lemma CallKeepsPub(s: State, s': State, t: Tid, a: AllocId, r: Range, k: nat)
    requires CallStep(s, s', t, a, r) && k < |s.pubs| && PubOk(s, k)
    ensures PubOk(s', k)
  {
  }

  lemma CollectKeepsPub(s: State, s': State, t: Tid, r: Range, k: nat)
    requires CollectStep(s, s', t, r) && k < |s.pubs| && PubOk(s, k)
    ensures PubOk(s', k)
  {
  }

  lemma ReleaseKeepsPub(s: State, s': State, t: Tid, k: nat)
    requires ReleaseStep(s, s', t) && k < |s.pubs| && PubOk(s, k)
    ensures PubOk(s', k)
  {
  }

  // ----- What each kind of step leaves alone -----

  lemma ProducerFrame(s: State, s': State, t: Tid)
    requires ProducerStep(s, s', t)
    ensures s'.layout == s.layout && s'.registered == s.registered && s'.retiring == s.retiring
    ensures s'.flushed == s.flushed && s'.flush == s.flush && |s'.queues| == |s.queues| && s'.acks == s.acks
    ensures s.epoch <= s'.epoch && |s.pubs| <= |s'.pubs|
    ensures s.threads[t].pc != Flushing
    ensures t in s'.threads && s'.threads == s.threads[t := s'.threads[t]]
    ensures s'.threads[t].required <= s'.epoch || s'.threads[t].required == s.threads[t].required
    ensures forall k :: 0 <= k < |s.pubs| && (s.threads[t].pc.Ticket? ==> k != s.threads[t].pc.pub) ==> s'.pubs[k] == s.pubs[k]
  {
  }

  ghost predicate FlushFramed(s: State, s': State, t: Tid)
    requires t in s.threads && s.flush.Flush?
  {
    && s'.layout == s.layout && s'.registered == s.registered && s'.retiring == s.retiring
    && |s'.queues| == |s.queues| && s'.epoch == s.epoch && s'.pubs == s.pubs
    && t in s'.threads && s'.threads == s.threads[t := s'.threads[t]]
    && s'.threads[t].required == s.threads[t].required
    && !s'.threads[t].pc.MarkPending? && !s'.threads[t].pc.Ticket?
    && (s'.flush.Flush? ==> s'.threads == s.threads && s'.flush.tid == s.flush.tid && s'.flush.kind == s.flush.kind)
    && s'.flushed == (if s.flush.phase.StoreEpoch? then s.flush.epoch else s.flushed)
  }

  predicate Draining(ph: Phase) {
    ph.Take? || ph.Compact? || ph.TakeFull? || ph.ScanFull? || ph.ScanPortable?
  }

  lemma DrainFrame(s: State, s': State, t: Tid, a: AllocId)
    requires FlushStep(s, s', t, a) && Draining(s.flush.phase)
    ensures FlushFramed(s, s', t)
  {
  }

  lemma ScanFrame(s: State, s': State, t: Tid)
    requires t in s.threads && s.threads[t].pc == Flushing && s.flush.Flush? && s.flush.tid == t && ScanStep(s, s', t)
    ensures FlushFramed(s, s', t)
  {
  }

  lemma SendFrame(s: State, s': State, t: Tid, a: AllocId)
    requires FlushStep(s, s', t, a) && (s.flush.phase.Send? || s.flush.phase.Sent?)
    ensures FlushFramed(s, s', t)
  {
  }

  lemma DropFrame(s: State, s': State, t: Tid, a: AllocId)
    requires FlushStep(s, s', t, a) && s.flush.phase.Drop?
    ensures FlushFramed(s, s', t)
  {
  }

  lemma FinishFrame(s: State, s': State, t: Tid)
    requires t in s.threads && s.threads[t].pc == Flushing && s.flush.Flush? && s.flush.tid == t && FinishStep(s, s', t)
    ensures FlushFramed(s, s', t)
  {
  }

  lemma FlushFrame(s: State, s': State, t: Tid, a: AllocId)
    requires FlushStep(s, s', t, a)
    ensures FlushFramed(s, s', t)
  {
    match s.flush.phase {
      case Again | LoadEpoch | RouteStart | Scan(_, _) | LoadFull(_) => ScanFrame(s, s', t);
      case Send(_) | Sent(_, _) => SendFrame(s, s', t, a);
      case Drop(_, _) => DropFrame(s, s', t, a);
      case StoreEpoch | WaitReferences | Unlock(_) => FinishFrame(s, s', t);
      case _ => DrainFrame(s, s', t, a);
    }
  }

  /** A step that is neither a producer's nor the flusher's own. */
  ghost predicate OtherStep(s: State, s': State, t: Tid, a: AllocId, r: Range) {
    LockStep(s, s', t) || CallStep(s, s', t, a, r) || CollectStep(s, s', t, r) || ReleaseStep(s, s', t)
  }

  ghost predicate OtherFramed(s: State, s': State, t: Tid)
    requires t in s.threads
  {
    && s'.layout == s.layout && s.retiring <= s'.retiring
    && s'.queues == s.queues && s'.epoch == s.epoch && s'.flushed == s.flushed && s'.pubs == s.pubs
    && t in s'.threads && s'.threads == s.threads[t := s'.threads[t]]
    && s'.threads[t].required == s.threads[t].required
    && !s'.threads[t].pc.MarkPending? && !s'.threads[t].pc.Ticket?
  }

  lemma LockFrame(s: State, s': State, t: Tid)
    requires LockStep(s, s', t)
    ensures OtherFramed(s, s', t)
  {
  }

  lemma CallFrame(s: State, s': State, t: Tid, a: AllocId, r: Range)
    requires CallStep(s, s', t, a, r)
    ensures OtherFramed(s, s', t)
  {
  }

  lemma OtherFrame(s: State, s': State, t: Tid, a: AllocId, r: Range)
    requires OtherStep(s, s', t, a, r)
    ensures OtherFramed(s, s', t)
  {
    if LockStep(s, s', t) {
      LockFrame(s, s', t);
    } else if CallStep(s, s', t, a, r) {
      CallFrame(s, s', t, a, r);
    }
  }

  lemma ProducerKeepsTickets(s: State, s': State, t: Tid)
    requires Tickets(s) && ProducerStep(s, s', t)
    ensures Tickets(s')
  {
    ProducerFrame(s, s', t);
    assert TicketOk(s, t, s.threads[t].pc);
    assert TicketOk(s', t, s'.threads[t].pc);
    forall u | u in s'.threads && u != t
      ensures TicketOk(s', u, s'.threads[u].pc) && s'.threads[u].required <= s'.epoch
    {
      assert TicketOk(s, u, s.threads[u].pc);
    }
  }

  lemma MoveKeepsTickets(s: State, s': State, t: Tid, a: AllocId, r: Range)
    requires Tickets(s) && Move(s, s', t, a, r)
    ensures Tickets(s')
  {
    if ProducerStep(s, s', t) {
      ProducerKeepsTickets(s, s', t);
    } else {
      if FlushStep(s, s', t, a) { FlushFrame(s, s', t, a); } else { OtherFrame(s, s', t, a, r); }
      forall u | u in s'.threads
        ensures TicketOk(s', u, s'.threads[u].pc) && s'.threads[u].required <= s'.epoch
      {
        assert TicketOk(s, u, s.threads[u].pc);
      }
    }
  }

  lemma ScanKeepsEpochs(s: State, s': State, t: Tid)
    requires t in s.threads && s.flush.Flush? && s.flush.tid == t && ScanStep(s, s', t)
    requires FlushEpochs(s) && s.flushed <= s.epoch
    ensures s'.flushed <= s'.epoch && FlushEpochs(s') && s.flushed <= s'.flushed
  {
  }

  lemma FinishKeepsEpochs(s: State, s': State, t: Tid)
    requires t in s.threads && s.flush.Flush? && s.flush.tid == t && FinishStep(s, s', t)
    requires FlushEpochs(s) && s.flushed <= s.epoch && FlushAlive(s)
    ensures s'.flushed <= s'.epoch && FlushEpochs(s') && s.flushed <= s'.flushed
  {
  }

  lemma TakeKeepsEpochs(s: State, s': State)
    requires s.flush.Flush? && TakeStep(s, s')
    requires FlushEpochs(s) && s.flushed <= s.epoch
    ensures s'.flushed <= s'.epoch && FlushEpochs(s') && s.flushed <= s'.flushed
  {
  }

  lemma TakeFullKeepsEpochs(s: State, s': State)
    requires s.flush.Flush? && s.flush.phase.TakeFull? && TakeFullStep(s, s')
    requires FlushEpochs(s) && s.flushed <= s.epoch
    ensures s'.flushed <= s'.epoch && FlushEpochs(s') && s.flushed <= s'.flushed
  {
  }

  lemma SweepKeepsEpochs(s: State, s': State, a: AllocId)
    requires s.flush.Flush? && s.flush.phase.ScanFull? && SweepStep(s, s', a)
    requires FlushEpochs(s) && s.flushed <= s.epoch
    ensures s'.flushed <= s'.epoch && FlushEpochs(s') && s.flushed <= s'.flushed
  {
  }

  lemma PortableKeepsEpochs(s: State, s': State, a: AllocId)
    requires s.flush.Flush? && s.flush.phase.ScanPortable? && PortableStep(s, s', a)
    requires FlushEpochs(s) && s.flushed <= s.epoch
    ensures s'.flushed <= s'.epoch && FlushEpochs(s') && s.flushed <= s'.flushed
  {
  }

  lemma SendKeepsEpochs(s: State, s': State)
    requires s.flush.Flush? && SendStep(s, s')
    requires FlushEpochs(s) && s.flushed <= s.epoch
    ensures s'.flushed <= s'.epoch && FlushEpochs(s') && s.flushed <= s'.flushed
  {
  }

  lemma DropKeepsEpochs(s: State, s': State)
    requires s.flush.Flush? && s.flush.phase.Drop? && DropStep(s, s')
    requires FlushEpochs(s) && s.flushed <= s.epoch
    ensures s'.flushed <= s'.epoch && FlushEpochs(s') && s.flushed <= s'.flushed
  {
  }

  lemma FlushKeepsEpochs(s: State, s': State, t: Tid, a: AllocId)
    requires FlushStep(s, s', t, a) && FlushEpochs(s) && s.flushed <= s.epoch && FlushAlive(s)
    ensures s'.flushed <= s'.epoch && FlushEpochs(s') && s.flushed <= s'.flushed
  {
    match s.flush.phase {
      case Again | LoadEpoch | RouteStart | Scan(_, _) | LoadFull(_) => ScanKeepsEpochs(s, s', t);
      case StoreEpoch | WaitReferences | Unlock(_) => FinishKeepsEpochs(s, s', t);
      case Take(_, _, _, _) | Compact(_, _, _) => TakeKeepsEpochs(s, s');
      case TakeFull(_) => TakeFullKeepsEpochs(s, s');
      case ScanFull(_, _) => SweepKeepsEpochs(s, s', a);
      case ScanPortable(_, _) => PortableKeepsEpochs(s, s', a);
      case Send(_) | Sent(_, _) => SendKeepsEpochs(s, s');
      case Drop(_, _) => DropKeepsEpochs(s, s');
    }
  }

  lemma OtherKeepsWatermark(s: State, s': State, t: Tid, a: AllocId, r: Range)
    requires Inv(s) && OtherStep(s, s', t, a, r)
    ensures Watermark(s')
  {
    OtherFrame(s, s', t, a, r);
    assert PcAlive(s, t, s.threads[t].pc);
    OtherKeepsRegistry(s, s', t, a, r);
    OtherKeepsEpochs(s, s', t, a, r);
    MoveKeepsTickets(s, s', t, a, r);
    forall k | 0 <= k < |s'.pubs|
      ensures PubOk(s', k)
    {
      OtherKeepsPub(s, s', t, a, r, k);
    }
  }

  lemma OtherKeepsPub(s: State, s': State, t: Tid, a: AllocId, r: Range, k: nat)
    requires OtherStep(s, s', t, a, r)
    requires Watermark(s) && k < |s.pubs|
    ensures k < |s'.pubs| && PubOk(s', k)
  {
    assert PubOk(s, k);
    if LockStep(s, s', t) {
      LockKeepsPub(s, s', t, k);
    } else if CallStep(s, s', t, a, r) {
      CallKeepsPub(s, s', t, a, r, k);
    } else if CollectStep(s, s', t, r) {
      CollectKeepsPub(s, s', t, r, k);
    } else {
      ReleaseKeepsPub(s, s', t, k);
    }
  }

  lemma OtherKeepsRegistry(s: State, s': State, t: Tid, a: AllocId, r: Range)
    requires OtherStep(s, s', t, a, r)
    requires PcAlive(s, t, s.threads[t].pc)
    requires forall b :: b in s.layout ==> b in s.registered || b in s.retiring
    ensures forall b :: b in s'.layout ==> b in s'.registered || b in s'.retiring
  {
  }

  lemma LockKeepsEpochs(s: State, s': State, t: Tid)
    requires LockStep(s, s', t)
    ensures FlushEpochs(s')
  {
  }

  lemma CallKeepsEpochs(s: State, s': State, t: Tid, a: AllocId, r: Range)
    requires CallStep(s, s', t, a, r) && FlushEpochs(s)
    ensures FlushEpochs(s')
  {
  }

  lemma CollectKeepsEpochs(s: State, s': State, t: Tid, r: Range)
    requires CollectStep(s, s', t, r) && FlushEpochs(s)
    ensures FlushEpochs(s')
  {
  }

  lemma ReleaseKeepsEpochs(s: State, s': State, t: Tid)
    requires ReleaseStep(s, s', t) && FlushEpochs(s)
    ensures FlushEpochs(s')
  {
  }

  lemma OtherKeepsEpochs(s: State, s': State, t: Tid, a: AllocId, r: Range)
    requires OtherStep(s, s', t, a, r) && FlushEpochs(s)
    ensures FlushEpochs(s')
  {
    if LockStep(s, s', t) {
      LockKeepsEpochs(s, s', t);
    } else if CallStep(s, s', t, a, r) {
      CallKeepsEpochs(s, s', t, a, r);
    } else if CollectStep(s, s', t, r) {
      CollectKeepsEpochs(s, s', t, r);
    } else {
      ReleaseKeepsEpochs(s, s', t);
    }
  }

  lemma FlushKeepsWatermark(s: State, s': State, t: Tid, a: AllocId, r: Range)
    requires Inv(s) && FlushStep(s, s', t, a)
    ensures Watermark(s')
  {
    FlushFrame(s, s', t, a);
    MoveKeepsTickets(s, s', t, a, r);
    FlushKeepsEpochs(s, s', t, a);
    forall k | 0 <= k < |s'.pubs|
      ensures PubOk(s', k)
    {
      FlushKeepsPub(s, s', t, a, k);
    }
  }

  lemma ProducerKeepsWatermark(s: State, s': State, t: Tid, a: AllocId, r: Range)
    requires Inv(s) && ProducerStep(s, s', t)
    ensures Watermark(s')
  {
    ProducerFrame(s, s', t);
    MoveKeepsTickets(s, s', t, a, r);
    ProducerKeepsPubs(s, s', t);
  }

  lemma MoveKeepsInv(s: State, s': State, t: Tid, a: AllocId, r: Range)
    requires Inv(s) && Move(s, s', t, a, r)
    ensures Inv(s')
  {
    MoveKeepsSlots(s, s', t, a, r);
    MoveConserves(s, s', t, a, r);
    MoveKeepsLifetimes(s, s', t, a, r);
    if ProducerStep(s, s', t) {
      ProducerKeepsWatermark(s, s', t, a, r);
    } else if FlushStep(s, s', t, a) {
      FlushKeepsWatermark(s, s', t, a, r);
    } else {
      OtherKeepsWatermark(s, s', t, a, r);
    }
  }

  lemma TickKeepsSlots(s: State, s': State)
    requires Slots(s) && s' == s.(clock := s.clock + 1)
    ensures Slots(s')
  {
    Undisturbed(s, s');
  }

  lemma TickKeepsLifetimes(s: State, s': State)
    requires Lifetimes(s) && s' == s.(clock := s.clock + 1)
    ensures Lifetimes(s')
  {
    forall t | t in s'.threads
      ensures PcAlive(s', t, s'.threads[t].pc)
    {
      assert PcAlive(s, t, s.threads[t].pc);
    }
    FlushStaysAlive(s, s');
    forall t, u | t in s'.threads && u in s'.threads && t != u
      ensures Retiree(s', t) !! Retiree(s', u)
    {
      assert Retiree(s, t) !! Retiree(s, u);
    }
  }

  lemma TickKeepsWatermark(s: State, s': State)
    requires Watermark(s) && s' == s.(clock := s.clock + 1)
    ensures Watermark(s')
  {
    forall t | t in s'.threads
      ensures TicketOk(s', t, s'.threads[t].pc)
    {
      assert TicketOk(s, t, s.threads[t].pc);
    }
    forall k | 0 <= k < |s'.pubs|
      ensures PubOk(s', k)
    {
      assert PubOk(s, k);
    }
  }

  lemma TickKeepsInv(s: State, s': State)
    requires Inv(s) && s' == s.(clock := s.clock + 1)
    ensures Inv(s')
  {
    TickKeepsSlots(s, s');
    TickKeepsLifetimes(s, s');
    TickKeepsWatermark(s, s');
    assert Conserved(s');
  }

  lemma StepKeepsInv(s: State, s': State)
    requires Inv(s) && Step(s, s')
    ensures Inv(s')
  {
    var t, a, r :| StepBy(s, s', t, a, r);
    var s1 := s'.(clock := s.clock);
    MoveKeepsInv(s, s1, t, a, r);
    TickKeepsInv(s1, s');
  }

  lemma StepKeepsWatermark(s: State, s': State)
    requires Inv(s) && Step(s, s')
    ensures s.flushed <= s'.flushed
  {
    var t, a, r :| StepBy(s, s', t, a, r);
    var s1 := s'.(clock := s.clock);
    if ProducerStep(s, s1, t) {
      ProducerFrame(s, s1, t);
    } else if FlushStep(s, s1, t, a) {
      FlushKeepsEpochs(s, s1, t, a);
    } else {
      OtherFrame(s, s1, t, a, r);
    }
  }

  // ----- Whole runs -----

  lemma InitHolds(s: State)
    requires Init(s)
    ensures Inv(s)
  {
    forall i | 0 <= i < |s.queues|
      ensures QueueOkAt(s, i)
    {
      assert EmptyQueue(s.queues[i]);
    }
    forall a | a in s.layout
      ensures PendingOf(s, a) == References(s, a)
    {
      assert EmptyQueue(s.queues[s.layout[a].route]);
      assert ReadyRefs(s.queues[s.layout[a].route], a) == {};
      assert RefThreads(s.threads, a) == {};
    }
    forall i | 0 <= i < |s.queues|
      ensures QueueAlive(s.registered, s.queues[i])
    {
      assert EmptyQueue(s.queues[i]);
    }
  }

  lemma {:induction false} RunKeepsInv(run: seq<State>, i: nat)
    requires Run(run) && i < |run|
    ensures Inv(run[i])
  {
    if i == 0 {
      InitHolds(run[0]);
    } else {
      RunKeepsInv(run, i - 1);
      assert StepAt(run, i - 1);
      StepKeepsInv(run[i - 1], run[i]);
    }
  }

  /** The watermark never moves back. */
  lemma {:induction false} WatermarkGrows(run: seq<State>, i: nat, j: nat)
    requires Run(run) && i <= j < |run|
    ensures run[i].flushed <= run[j].flushed
    decreases j
  {
    if i < j {
      WatermarkGrows(run, i, j - 1);
      RunKeepsInv(run, j - 1);
      assert StepAt(run, j - 1);
      StepKeepsWatermark(run[j - 1], run[j]);
    }
  }

  /** A ticket at or below the watermark has been acknowledged, with contents read
      no earlier than the publication. */
  lemma FlushedMeansAcknowledged(run: seq<State>, i: nat, k: nat)
    requires Run(run) && i < |run| && k < |run[i].pubs|
    requires 0 < run[i].pubs[k].ticket <= run[i].flushed && run[i].pubs[k].range.alloc !in run[i].retiring
    ensures Acknowledged(run[i].acks, run[i].pubs[k])
  {
    RunKeepsInv(run, i);
    assert PubOk(run[i], k);
  }

  /** lupine_prepare_rpc returns 0 either at once, when the thread's own epoch is
      flushed, or when its flush loop ends. */
  predicate Prepared(s: State, t: Tid) {
    && t in s.threads
    && ((s.threads[t].pc == Idle && s.threads[t].required <= s.flushed)
        || (s.threads[t].pc == Flushing && s.flush.Flush? && s.flush.tid == t && s.flush.kind == Prepare
            && s.flush.phase == Unlock(true)))
  }

  /** When lupine_prepare_rpc returns 0, every range the calling thread published
      on a live allocation has been acknowledged. */
  lemma PreparedMeansAcknowledged(run: seq<State>, i: nat, t: Tid, k: nat)
    requires Run(run) && i < |run| && Prepared(run[i], t)
    requires k < |run[i].pubs| && run[i].pubs[k].tid == t && run[i].pubs[k].range.alloc !in run[i].retiring
    ensures Acknowledged(run[i].acks, run[i].pubs[k])
  {
    RunKeepsInv(run, i);
    assert PubOk(run[i], k);
  }

  /** Nothing is lost, whatever fails: a published range of a live allocation is
      acknowledged, or still queued, held by a flush or marked full_dirty. */
  lemma NothingIsLost(run: seq<State>, i: nat, k: nat)
    requires Run(run) && i < |run| && k < |run[i].pubs|
    requires run[i].pubs[k].range.alloc !in run[i].retiring
    ensures Known(run[i], run[i].pubs[k].range) && Safe(run[i], k)
  {
    RunKeepsInv(run, i);
    assert PubOk(run[i], k);
  }

  /** pending_dirty_ranges is exactly the number of references. */
  lemma ReferencesAreCounted(run: seq<State>, i: nat, a: AllocId)
    requires Run(run) && i < |run| && a in run[i].layout
    ensures run[i].layout[a].route < |run[i].queues| && PendingOf(run[i], a) == References(run[i], a)
  {
    RunKeepsInv(run, i);
  }

  /** Erasing an allocation leaves no reference to it behind. */
  lemma ErasedMeansUnreferenced(run: seq<State>, i: nat, t: Tid, a: AllocId)
    requires Run(run) && i < |run| && t in run[i].threads && run[i].threads[t].pc == RetireErase(a)
    ensures forall n, j :: 0 <= n < |run[i].queues| && ReadyAt(run[i].queues[n], j) ==>
              run[i].queues[n].ranges[j].alloc != a
    ensures forall n :: 0 <= n < |Taken(run[i])| ==> Taken(run[i])[n].alloc != a
    ensures forall u :: u in run[i].threads ==>
              !Touches(run[i].threads[u].pc, a) && run[i].threads[u].pc != Holding(a)
  {
    RunKeepsInv(run, i);
    EraseIsUnreferenced(run[i], t, a);
  }
}
