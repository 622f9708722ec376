/** When the free of an allocation gets past its wait for the references to it
    (lupine_drain_retiring_dirty_ranges). It waits while it holds the flush mutex, so
    a reference that only a flush can release is never released. */
module DirtyFrees {
  import opened Options
  import opened DirtyQueue
  import opened DirtySlots
  import opened DirtyReferences
  import opened DirtyLifetimes
  import opened FlushWatermark

  /** The free has flushed the route and waits, holding the flush mutex. */
  predicate Waiting(s: State, a: AllocId) {
    s.flush.Flush? && s.flush.kind == Retire(a) && s.flush.phase == WaitReferences
  }

  predicate Ended(s: State, a: AllocId) {
    s.flush.Flush? && s.flush.kind == Retire(a) && s.flush.phase == Unlock(true)
  }

  /** The handler will publish the range in a slot of the queue. */
  predicate Filling(pc: Pc, a: AllocId) { OwnsSlot(pc) && pc.r.alloc == a }

  predicate Queued(s: State, a: AllocId) {
    a in s.layout && s.layout[a].route < |s.queues| && ReadyRefs(s.queues[s.layout[a].route], a) != {}
  }

  /** A range of the allocation is in the queue, or will be. */
  ghost predicate Bound(s: State, a: AllocId) {
    Queued(s, a) || exists t :: t in s.threads && Filling(s.threads[t].pc, a)
  }

  /** No handler is about to reserve a slot for the allocation: none stands there, or
      the queue is full. While the free waits none can come there any more. */
  ghost predicate Settled(s: State, a: AllocId) {
    && a in s.layout && s.layout[a].route < |s.queues|
    && (s.queues[s.layout[a].route].next >= MAX_RANGES
        || forall t :: t in s.threads && s.threads[t].pc.Reserve? ==> s.threads[t].pc.r.alloc != a)
  }

  // ----- Stuck -----

  lemma BoundCounts(s: State, a: AllocId)
    requires Inv(s) && Waiting(s, a) && Bound(s, a)
    ensures PendingOf(s, a) > 0
  {
    assert Retired(s, a);
    if Queued(s, a) {
      var j :| j in ReadyRefs(s.queues[s.layout[a].route], a);
    } else {
      var t :| t in s.threads && Filling(s.threads[t].pc, a);
      ReferrerCounts(s, t, a);
    }
  }

  /** A producer takes nothing out of a queue. */
  lemma ProducerKeepsQueued(s: State, s': State, t: Tid, a: AllocId)
    requires Slots(s) && ProducerStep(s, s', t) && Queued(s, a)
    ensures Queued(s', a)
  {
    var i := s.layout[a].route;
    var j :| j in ReadyRefs(s.queues[i], a);
    assert SlotOk(s, s.threads[t].pc);
    assert j in ReadyRefs(s'.queues[i], a);
  }

  lemma PublishQueues(s: State, s': State, t: Tid, a: AllocId)
    requires Slots(s) && ProducerStep(s, s', t) && s.threads[t].pc.Publish? && s.threads[t].pc.r.alloc == a
    ensures Queued(s', a)
  {
    assert SlotOk(s, s.threads[t].pc);
    assert s.threads[t].pc.slot in ReadyRefs(s'.queues[s.layout[a].route], a);
  }

  lemma ProducerKeepsBound(s: State, s': State, t: Tid, a: AllocId)
    requires Slots(s) && ProducerStep(s, s', t) && Bound(s, a)
    ensures Bound(s', a) && s'.flush == s.flush
  {
    if Queued(s, a) {
      ProducerKeepsQueued(s, s', t, a);
    } else {
      var u :| u in s.threads && Filling(s.threads[u].pc, a);
      if u == t && s.threads[t].pc.Publish? {
        PublishQueues(s, s', t, a);
      } else {
        assert u in s'.threads && Filling(s'.threads[u].pc, a);
      }
    }
  }

  lemma OtherKeepsBound(s: State, s': State, t: Tid, b: AllocId, r: Range, a: AllocId)
    requires CallStep(s, s', t, b, r) || CollectStep(s, s', t, r) || ReleaseStep(s, s', t)
    requires Bound(s, a)
    ensures Bound(s', a) && s'.flush == s.flush
  {
    OtherFrame(s, s', t, b, r);
    if !Queued(s, a) {
      var u :| u in s.threads && Filling(s.threads[u].pc, a);
      assert u in s'.threads && Filling(s'.threads[u].pc, a);
    }
  }

  lemma MoveKeepsBound(s: State, s': State, t: Tid, b: AllocId, r: Range, a: AllocId)
    requires Inv(s) && Move(s, s', t, b, r) && Waiting(s, a) && Bound(s, a)
    ensures Waiting(s', a) && Bound(s', a) && s'.flush == s.flush
  {
    BoundCounts(s, a);
    if ProducerStep(s, s', t) {
      ProducerKeepsBound(s, s', t, a);
    } else {
      OtherKeepsBound(s, s', t, b, r, a);
    }
  }

  lemma StepKeepsBound(s: State, s': State, a: AllocId)
    requires Inv(s) && Step(s, s') && Waiting(s, a) && Bound(s, a)
    ensures Waiting(s', a) && Bound(s', a) && s'.flush == s.flush
  {
    var t, b, r :| StepBy(s, s', t, b, r);
    MoveKeepsBound(s, s'.(clock := s.clock), t, b, r, a);
  }

  lemma NextKeepsBound(run: seq<State>, i: nat, a: AllocId)
    requires Run(run) && i + 1 < |run| && Waiting(run[i], a) && Bound(run[i], a)
    ensures Waiting(run[i + 1], a) && Bound(run[i + 1], a) && run[i + 1].flush == run[i].flush
  {
    RunKeepsInv(run, i);
    assert StepAt(run, i);
    StepKeepsBound(run[i], run[i + 1], a);
  }

  lemma {:induction false} BoundStays(run: seq<State>, i: nat, j: nat, a: AllocId)
    requires Run(run) && i <= j < |run| && Waiting(run[i], a) && Bound(run[i], a)
    ensures run[j].flush == run[i].flush && Waiting(run[j], a) && Bound(run[j], a)
    decreases j
  {
    if i < j {
      BoundStays(run, i, j - 1, a);
      NextKeepsBound(run, j - 1, a);
    }
  }

  /** Once a range of the allocation is in the queue, or a handler has reserved a slot
      for one, the free waits for ever: whatever follows, it holds the flush mutex and
      the count stays above zero. */
  lemma BoundWaitsForever(run: seq<State>, i: nat, j: nat, a: AllocId)
    requires Run(run) && i <= j < |run| && Waiting(run[i], a) && Bound(run[i], a)
    ensures run[j].flush == run[i].flush && Waiting(run[j], a) && PendingOf(run[j], a) > 0
  {
    BoundStays(run, i, j, a);
    RunKeepsInv(run, j);
    BoundCounts(run[j], a);
  }

  // ----- When it ends -----

  /** A step of a waiting free's last referrers. */
  predicate Lets(s: State, s': State, t: Tid, a: AllocId) {
    && t in s.threads
    && match s.threads[t].pc
       case Reserve(r) => r.alloc == a && Known(s, r) && s.queues[RouteOf(s, r)].next >= MAX_RANGES
                          && s' == Goto(s, t, Uncount(r)).(clock := s.clock + 1)
       case Uncount(r) => r.alloc == a && s' == Goto(AddPending(s, a, -1), t, MarkFull(r)).(clock := s.clock + 1)
       case Holding(b) => b == a && s' == Goto(AddPending(s, a, -1), t, Idle).(clock := s.clock + 1)
       case _ => false
  }

  lemma LetsIsStep(s: State, s': State, t: Tid, a: AllocId)
    requires Lets(s, s', t, a)
    ensures Step(s, s')
  {
    var s1 := s'.(clock := s.clock);
    if s.threads[t].pc.Holding? {
      assert ReleaseStep(s, s1, t);
    } else {
      assert ProducerStep(s, s1, t);
    }
    assert StepBy(s, s', t, 0, Range(0, 0, 0));
  }

  lemma LetsKeepsWaiting(s: State, s': State, t: Tid, a: AllocId)
    requires Lets(s, s', t, a) && Waiting(s, a) && Settled(s, a) && !Bound(s, a)
    ensures Waiting(s', a) && Settled(s', a) && !Bound(s', a)
  {
    forall u | u in s'.threads
      ensures !Filling(s'.threads[u].pc, a)
    {
      assert u in s.threads && (u != t ==> s'.threads[u] == s.threads[u]);
    }
  }

  lemma Extend(run: seq<State>, s': State)
    requires Run(run) && Step(run[|run| - 1], s')
    ensures Run(run + [s'])
  {
    var run' := run + [s'];
    forall i | 0 <= i < |run'| - 1
      ensures StepAt(run', i)
    {
      if i < |run| - 1 { assert StepAt(run, i); }
    }
  }

  function Last(run: seq<State>): State
    requires |run| > 0
  {
    run[|run| - 1]
  }

  /** Someone still refers to the allocation, or the count is zero. */
  lemma ReferrersLeft(s: State, a: AllocId)
    requires Inv(s) && Waiting(s, a) && !Bound(s, a)
    ensures a in s.layout && PendingOf(s, a) == |RefThreads(s.threads, a)|
  {
    assert a in s.layout && s.layout[a].route < |s.queues|;
    assert ReadyRefs(s.queues[s.layout[a].route], a) == {};
    assert s.portable == [] && Taken(s) == [];
  }

  function Reserving(threads: map<Tid, Thread>, a: AllocId): set<Tid> {
    set t | t in threads && threads[t].pc.Reserve? && threads[t].pc.r.alloc == a
  }

  function Weight(threads: map<Tid, Thread>, a: AllocId): nat {
    |RefThreads(threads, a)| + |Reserving(threads, a)|
  }

  lemma ReserveMoves(threads: map<Tid, Thread>, t: Tid, th: Thread, a: AllocId)
    requires t in threads && !th.pc.Reserve?
    ensures |Reserving(threads[t := th], a)| == |Reserving(threads, a)| - (if t in Reserving(threads, a) then 1 else 0)
  {
    assert Reserving(threads[t := th], a) == Reserving(threads, a) - {t};
  }

  lemma LetsLess(s: State, s': State, t: Tid, a: AllocId)
    requires Lets(s, s', t, a)
    ensures Weight(s'.threads, a) < Weight(s.threads, a)
  {
    var th := s'.threads[t];
    assert s'.threads == s.threads[t := th];
    ThreadMoves(s.threads, t, th, a);
    ReserveMoves(s.threads, t, th, a);
  }

  /** Every referrer that is left can take a step. */
  lemma ReferrerCanGo(s: State, t: Tid, a: AllocId) returns (s': State)
    requires Inv(s) && Settled(s, a) && !Bound(s, a) && t in RefThreads(s.threads, a)
    ensures Lets(s, s', t, a)
  {
    var pc := s.threads[t].pc;
    assert PcAlive(s, t, pc) && !Filling(pc, a);
    if pc.Reserve? {
      s' := Goto(s, t, Uncount(pc.r)).(clock := s.clock + 1);
    } else {
      s' := Goto(AddPending(s, a, -1), t, if pc.Uncount? then MarkFull(pc.r) else Idle).(clock := s.clock + 1);
    }
  }

  lemma LastReferrerGone(s: State, a: AllocId) returns (s': State)
    requires Inv(s) && Waiting(s, a) && PendingOf(s, a) == 0
    ensures Step(s, s') && Ended(s', a)
  {
    s' := SetPhase(s, Unlock(true)).(clock := s.clock + 1);
    assert FlushStep(s, s'.(clock := s.clock), s.flush.tid, a);
    assert StepBy(s, s', s.flush.tid, a, Range(0, 0, 0));
  }

  /** The free waits, and nothing holds it up for ever. */
  ghost predicate Open(s: State, a: AllocId) { Waiting(s, a) && Settled(s, a) && !Bound(s, a) }

  /** The wait ends, or one of the referrers gets closer to letting go. */
  ghost predicate Nearer(s: State, s': State, a: AllocId) {
    Ended(s', a) || (Open(s', a) && Weight(s'.threads, a) < Weight(s.threads, a))
  }

  lemma WaitGoesOn(run: seq<State>, a: AllocId) returns (s': State)
    requires Run(run) && Open(Last(run), a)
    ensures Step(Last(run), s') && Nearer(Last(run), s', a)
  {
    var s := Last(run);
    RunKeepsInv(run, |run| - 1);
    ReferrersLeft(s, a);
    if RefThreads(s.threads, a) == {} {
      s' := LastReferrerGone(s, a);
    } else {
      var t :| t in RefThreads(s.threads, a);
      s' := ReferrerCanGo(s, t, a);
      LetsIsStep(s, s', t, a);
      LetsKeepsWaiting(s, s', t, a);
      LetsLess(s, s', t, a);
    }
  }

  lemma RunGoesOn(run: seq<State>, a: AllocId) returns (run': seq<State>)
    requires Run(run) && Open(Last(run), a)
    ensures Run(run') && run <= run' && Nearer(Last(run), Last(run'), a)
  {
    var s' := WaitGoesOn(run, a);
    Extend(run, s');
    run' := run + [s'];
  }

  /** The run goes on until the free has what it waits for. */
  lemma {:induction false} WaitEnds(run: seq<State>, a: AllocId) returns (run': seq<State>)
    requires Run(run) && Open(Last(run), a)
    ensures Run(run') && run <= run' && Ended(Last(run'), a)
    decreases Weight(Last(run).threads, a)
  {
    run' := RunGoesOn(run, a);
    if !Ended(Last(run'), a) {
      run' := WaitEnds(run', a);
    }
  }

  /** Some continuation of the run ends the wait. */
  ghost predicate CanEnd(run: seq<State>, a: AllocId) {
    exists run' :: Run(run') && run <= run' && Ended(Last(run'), a)
  }

  lemma BoundCannotEnd(run: seq<State>, a: AllocId)
    requires Run(run) && Waiting(Last(run), a) && Bound(Last(run), a)
    ensures !CanEnd(run, a)
  {
    forall run' | Run(run') && run <= run'
      ensures !Ended(Last(run'), a)
    {
      BoundStays(run', |run| - 1, |run'| - 1, a);
    }
  }

  /** If no handler is about to reserve a slot for the allocation, the wait can end if
      and only if none of its ranges is in the queue or on its way there. */
  lemma WaitCanEnd(run: seq<State>, a: AllocId)
    requires Run(run) && Waiting(Last(run), a) && Settled(Last(run), a)
    ensures CanEnd(run, a) <==> !Bound(Last(run), a)
  {
    if Bound(Last(run), a) {
      BoundCannotEnd(run, a);
    } else {
      var run' := WaitEnds(run, a);
    }
  }

  // ----- While the free waits -----

  /** Another allocation's handler puts nothing of this one into the queue. */
  lemma ProducerKeepsUnqueued(s: State, s': State, t: Tid, a: AllocId)
    requires Slots(s) && ProducerStep(s, s', t) && a in s.layout && s.layout[a].route < |s.queues|
    requires !Queued(s, a) && !Filling(s.threads[t].pc, a)
    ensures !Queued(s', a)
    ensures |s'.queues| == |s.queues| && s.queues[s.layout[a].route].next <= s'.queues[s.layout[a].route].next
  {
    var i := s.layout[a].route;
    assert SlotOk(s, s.threads[t].pc);
    assert ReadyRefs(s'.queues[i], a) <= ReadyRefs(s.queues[i], a);
  }

  lemma ProducerKeepsSettled(s: State, s': State, t: Tid, a: AllocId)
    requires ProducerStep(s, s', t) && Settled(s, a) && a in s.retiring && PcAlive(s, t, s.threads[t].pc)
    requires |s'.queues| == |s.queues| && s.queues[s.layout[a].route].next <= s'.queues[s.layout[a].route].next
    ensures Settled(s', a)
  {
  }

  /** While the free waits, nothing of the allocation comes into the queue but through a
      handler that stands at the reservation. */
  lemma ProducerKeepsOpen(s: State, s': State, t: Tid, a: AllocId)
    requires Inv(s) && Open(s, a) && ProducerStep(s, s', t)
    ensures Open(s', a)
  {
    assert PcAlive(s, t, s.threads[t].pc) && !Filling(s.threads[t].pc, a);
    assert Retired(s, a);
    ProducerKeepsUnqueued(s, s', t, a);
    ProducerKeepsSettled(s, s', t, a);
    ProducerKeepsUnfilled(s, s', t, a);
    ProducerFrame(s, s', t);
  }

  lemma ProducerKeepsUnfilled(s: State, s': State, t: Tid, a: AllocId)
    requires Open(s, a) && ProducerStep(s, s', t)
    ensures forall u :: u in s'.threads ==> !Filling(s'.threads[u].pc, a)
  {
    forall u | u in s'.threads
      ensures !Filling(s'.threads[u].pc, a)
    {
      assert !Filling(s.threads[u].pc, a);
    }
  }

  lemma OtherKeepsOpen(s: State, s': State, t: Tid, b: AllocId, r: Range, a: AllocId)
    requires Open(s, a) && (CallStep(s, s', t, b, r) || CollectStep(s, s', t, r) || ReleaseStep(s, s', t))
    ensures Open(s', a)
  {
    OtherFrame(s, s', t, b, r);
  }

  lemma FlushEndsWait(s: State, s': State, t: Tid, b: AllocId, a: AllocId)
    requires FlushStep(s, s', t, b) && Waiting(s, a)
    ensures !Waiting(s', a)
  {
  }

  lemma MoveKeepsOpen(s: State, s': State, t: Tid, b: AllocId, r: Range, a: AllocId)
    requires Inv(s) && Move(s, s', t, b, r) && Open(s, a) && Waiting(s', a)
    ensures Open(s', a)
  {
    if ProducerStep(s, s', t) {
      ProducerKeepsOpen(s, s', t, a);
    } else if FlushStep(s, s', t, b) {
      FlushEndsWait(s, s', t, b, a);
    } else {
      OtherKeepsOpen(s, s', t, b, r, a);
    }
  }

  lemma StepKeepsOpen(s: State, s': State, a: AllocId)
    requires Inv(s) && Step(s, s') && Open(s, a) && Waiting(s', a)
    ensures Open(s', a)
  {
    var t, b, r :| StepBy(s, s', t, b, r);
    MoveKeepsOpen(s, s'.(clock := s.clock), t, b, r, a);
  }

  /** The run goes on while the free waits. */
  ghost predicate WaitsOn(run: seq<State>, run': seq<State>, a: AllocId) {
    Run(run) && Run(run') && run <= run' && forall k :: |run| - 1 <= k < |run'| ==> Waiting(run'[k], a)
  }

  lemma NextKeepsOpen(run: seq<State>, i: nat, a: AllocId)
    requires Run(run) && i + 1 < |run| && Open(run[i], a) && Waiting(run[i + 1], a)
    ensures Open(run[i + 1], a)
  {
    RunKeepsInv(run, i);
    assert StepAt(run, i);
    StepKeepsOpen(run[i], run[i + 1], a);
  }

  lemma {:induction false} OpenStays(run: seq<State>, run': seq<State>, j: nat, a: AllocId)
    requires WaitsOn(run, run', a) && Open(Last(run), a) && |run| - 1 <= j < |run'|
    ensures Open(run'[j], a)
    decreases j
  {
    if j > |run| - 1 {
      OpenStays(run, run', j - 1, a);
      NextKeepsOpen(run', j - 1, a);
    }
  }

  /** A handler that reserves a slot now binds the free. */
  lemma ReserveBinds(s: State, t: Tid, r: Range) returns (s': State)
    requires t in s.threads && s.threads[t].pc == Reserve(r) && Known(s, r)
    requires s.queues[RouteOf(s, r)].next < MAX_RANGES
    ensures Step(s, s') && s'.flush == s.flush && Bound(s', r.alloc)
  {
    var i := RouteOf(s, r);
    var q := s.queues[i];
    s' := Goto(SetQueue(s, i, q.(next := q.next + 1)), t, Fill(r, q.next)).(clock := s.clock + 1);
    assert StepBy(s, s', t, r.alloc, r);
    assert t in s'.threads && Filling(s'.threads[t].pc, r.alloc);
  }

  lemma UnsettledStep(run: seq<State>, a: AllocId) returns (s': State)
    requires Run(run) && Waiting(Last(run), a) && !Settled(Last(run), a)
    ensures Step(Last(run), s') && Waiting(s', a) && Bound(s', a)
  {
    var s := Last(run);
    RunKeepsInv(run, |run| - 1);
    assert Retired(s, a);
    var t :| t in s.threads && s.threads[t].pc.Reserve? && s.threads[t].pc.r.alloc == a;
    assert PcAlive(s, t, s.threads[t].pc);
    s' := ReserveBinds(s, t, s.threads[t].pc.r);
  }

  lemma UnsettledRun(run: seq<State>, a: AllocId) returns (run': seq<State>)
    requires Run(run) && Waiting(Last(run), a) && !Settled(Last(run), a)
    ensures WaitsOn(run, run', a) && Bound(Last(run'), a)
  {
    var s' := UnsettledStep(run, a);
    Extend(run, s');
    run' := run + [s'];
  }

  lemma UnsettledMayBind(run: seq<State>, a: AllocId) returns (run': seq<State>)
    requires Run(run) && Waiting(Last(run), a) && !Settled(Last(run), a)
    ensures WaitsOn(run, run', a) && !CanEnd(run', a)
  {
    run' := UnsettledRun(run, a);
    BoundCannotEnd(run', a);
  }

  /** The wait can never come to be held up for ever if and only if nothing of the
      allocation is in the queue or on its way there, and no handler stands at the
      reservation of a slot that is there to have. */
  lemma NeverHeldUpCondition(run: seq<State>, a: AllocId)
    requires Run(run) && Waiting(Last(run), a)
    ensures (forall run' :: WaitsOn(run, run', a) ==> CanEnd(run', a)) <==>
            !Bound(Last(run), a) && Settled(Last(run), a)
  {
    if Open(Last(run), a) {
      forall run' | WaitsOn(run, run', a)
        ensures CanEnd(run', a)
      {
        OpenStays(run, run', |run'| - 1, a);
        var end := WaitEnds(run', a);
      }
    } else if Bound(Last(run), a) {
      BoundCannotEnd(run, a);
      assert WaitsOn(run, run, a);
    } else {
      var run' := UnsettledMayBind(run, a);
    }
  }

  // ----- Frees nobody is in the way of -----

  ghost predicate Untouched(s: State, a: AllocId) {
    forall t :: t in s.threads ==> !Touches(s.threads[t].pc, a)
  }

  /** The free's own flush has not yet passed this slot. */
  predicate Remains(ph: Phase, j: nat) {
    match ph
    case Again | LoadEpoch | RouteStart | StoreEpoch => true
    case Scan(reserved, _) => j < reserved
    case LoadFull(end) => j < end
    case Take(end, _, _, _) => j < end
    case Unlock(ok) => !ok
    case _ => false
  }

  /** What is queued of the allocation, the free's flush will still take. */
  ghost predicate Drains(s: State, a: AllocId)
    requires a in s.layout && s.layout[a].route < |s.queues|
  {
    s.flush.Flush? && s.flush.kind == Retire(a) ==>
      forall j :: j in ReadyRefs(s.queues[s.layout[a].route], a) ==> Remains(s.flush.phase, j)
  }

  /** The allocation is being freed and no handler works on it. */
  ghost predicate QuietFree(s: State, a: AllocId) {
    && a in s.retiring && a in s.layout && s.layout[a].route < |s.queues|
    && Untouched(s, a) && Drains(s, a)
  }

  lemma ProducerKeepsQuiet(s: State, s': State, t: Tid, a: AllocId)
    requires Slots(s) && ProducerStep(s, s', t) && QuietFree(s, a)
    ensures QuietFree(s', a)
  {
    assert !Touches(s.threads[t].pc, a) && SlotOk(s, s.threads[t].pc);
    ProducerFrame(s, s', t);
    var i := s.layout[a].route;
    assert ReadyRefs(s'.queues[i], a) <= ReadyRefs(s.queues[i], a);
  }

  lemma LockKeepsQuiet(s: State, s': State, t: Tid, a: AllocId)
    requires LockStep(s, s', t) && QuietFree(s, a)
    ensures QuietFree(s', a)
  {
  }

  lemma OtherKeepsQuiet(s: State, s': State, t: Tid, b: AllocId, r: Range, a: AllocId)
    requires CallStep(s, s', t, b, r) || CollectStep(s, s', t, r) || ReleaseStep(s, s', t)
    requires QuietFree(s, a)
    ensures QuietFree(s', a)
  {
  }

  /** The free's own flush. */
  predicate Own(s: State, a: AllocId) {
    s.flush.Flush? && s.flush.kind == Retire(a) && a in s.layout && s.layout[a].route == s.flush.route < |s.queues|
  }

  lemma ReadyInWindow(s: State, a: AllocId, j: nat)
    requires Own(s, a) && QueueOkAt(s, s.flush.route) && j in ReadyRefs(s.queues[s.flush.route], a)
    ensures j < s.queues[s.flush.route].next
    ensures WindowOf(s.flush, s.flush.route, s.queues[s.flush.route]).emptied <= j
  {
    assert s.queues[s.flush.route].ready[j];
  }

  lemma ScanDrains(s: State, s': State, t: Tid, a: AllocId)
    requires t in s.threads && Own(s, a) && QueueOkAt(s, s.flush.route) && RouteBounds(s) && Drains(s, a)
    requires ScanStep(s, s', t) && !s.flush.phase.Again? && !s.flush.phase.LoadEpoch?
    ensures Own(s', a) && Drains(s', a)
  {
    forall j | j in ReadyRefs(s'.queues[s.flush.route], a)
      ensures Remains(s'.flush.phase, j)
    {
      ReadyInWindow(s, a, j);
      assert Remains(s.flush.phase, j);
    }
  }

  lemma TakeDrains(s: State, s': State, a: AllocId)
    requires Own(s, a) && QueueOkAt(s, s.flush.route) && Drains(s, a) && TakeStep(s, s')
    ensures Own(s', a) && Drains(s', a)
  {
    forall j | j in ReadyRefs(s'.queues[s.flush.route], a)
      ensures Remains(s'.flush.phase, j)
    {
      ReadyInWindow(s, a, j);
      assert Remains(s.flush.phase, j);
    }
  }

  predicate SameSlots(q: Queue, q': Queue) { q'.ready == q.ready && q'.ranges == q.ranges }

  lemma DropFrame(s: State, s': State, i: nat)
    requires s.flush.Flush? && s.flush.phase.Drop? && DropStep(s, s') && i < |s.queues|
    ensures |s'.queues| == |s.queues| && SameSlots(s.queues[i], s'.queues[i])
  {
  }

  /** Past the queue a flush leaves the slots alone. */
  lemma LateFrame(s: State, s': State, t: Tid, b: AllocId, i: nat)
    requires FlushStep(s, s', t, b) && i < |s.queues| && !Early(s.flush.phase)
    ensures |s'.queues| == |s.queues| && SameSlots(s.queues[i], s'.queues[i])
  {
    if s.flush.phase.Drop? { DropFrame(s, s', i); }
  }

  predicate Early(ph: Phase) {
    ph.Again? || ph.LoadEpoch? || ph.RouteStart? || ph.Scan? || ph.LoadFull? || ph.Take? || ph.Compact?
  }

  /** Once the queue has been drained, nothing comes in. */
  lemma LateDrains(s: State, s': State, t: Tid, b: AllocId, a: AllocId)
    requires Own(s, a) && Drains(s, a) && FlushStep(s, s', t, b)
    requires !Early(s.flush.phase) && !s.flush.phase.StoreEpoch?
    ensures s'.flush.Flush? && s'.flush.kind == Retire(a) ==> Own(s', a) && Drains(s', a)
  {
    FlushFrame(s, s', t, b);
    LateFrame(s, s', t, b, s.flush.route);
    if s'.flush.Flush? {
      assert ReadyRefs(s'.queues[s.flush.route], a) == ReadyRefs(s.queues[s.flush.route], a);
      assert s'.flush.route == s.flush.route;
    }
  }

  lemma OwnFlushDrains(s: State, s': State, t: Tid, b: AllocId, a: AllocId)
    requires RouteBounds(s) && FlushAlive(s) && Own(s, a) && QueueOkAt(s, s.flush.route)
    requires FlushStep(s, s', t, b) && Drains(s, a)
    ensures s'.flush.Flush? && s'.flush.kind == Retire(a) ==> Own(s', a) && Drains(s', a)
  {
    if s.flush.phase.Take? || s.flush.phase.Compact? {
      TakeDrains(s, s', a);
    } else if Early(s.flush.phase) {
      ScanDrains(s, s', t, a);
    } else {
      LateDrains(s, s', t, b, a);
    }
  }

  lemma FlushKeepsUntouched(s: State, s': State, t: Tid, b: AllocId, a: AllocId)
    requires FlushStep(s, s', t, b) && Untouched(s, a)
    ensures Untouched(s', a)
  {
    FlushFrame(s, s', t, b);
    if s.flush.phase.Unlock? {
      assert !Touches(s'.threads[t].pc, a);
    }
  }

  lemma FlushKeepsQuiet(s: State, s': State, t: Tid, b: AllocId, a: AllocId)
    requires Inv(s) && FlushStep(s, s', t, b) && QuietFree(s, a)
    ensures QuietFree(s', a)
  {
    FlushKeepsUntouched(s, s', t, b, a);
    FlushFrame(s, s', t, b);
    if s.flush.kind == Retire(a) {
      assert Own(s, a) && QueueOkAt(s, s.flush.route);
      OwnFlushDrains(s, s', t, b, a);
    }
  }

  lemma MoveKeepsQuiet(s: State, s': State, t: Tid, b: AllocId, r: Range, a: AllocId)
    requires Inv(s) && Move(s, s', t, b, r) && QuietFree(s, a)
    ensures QuietFree(s', a)
  {
    if ProducerStep(s, s', t) {
      ProducerKeepsQuiet(s, s', t, a);
    } else if FlushStep(s, s', t, b) {
      FlushKeepsQuiet(s, s', t, b, a);
    } else if LockStep(s, s', t) {
      LockKeepsQuiet(s, s', t, a);
    } else {
      OtherKeepsQuiet(s, s', t, b, r, a);
    }
  }

  lemma StepKeepsQuiet(s: State, s': State, a: AllocId)
    requires Inv(s) && Step(s, s') && QuietFree(s, a)
    ensures QuietFree(s', a)
  {
    var t, b, r :| StepBy(s, s', t, b, r);
    MoveKeepsQuiet(s, s'.(clock := s.clock), t, b, r, a);
  }

  /** The step in which the free of the allocation starts. */
  predicate FreeStarts(s: State, s': State, a: AllocId) { a !in s.retiring && a in s'.retiring }

  /** Only the application's call starts a free. */
  lemma StartIsCall(s: State, s': State, t: Tid, b: AllocId, r: Range, a: AllocId)
    requires Move(s, s', t, b, r) && FreeStarts(s, s', a)
    ensures CallStep(s, s', t, b, r)
  {
    if ProducerStep(s, s', t) {
      ProducerFrame(s, s', t);
    } else if FlushStep(s, s', t, b) {
      FlushFrame(s, s', t, b);
    }
  }

  lemma CallStartsQuiet(s: State, s': State, t: Tid, b: AllocId, r: Range, a: AllocId)
    requires RouteBounds(s) && FlushAlive(s) && s.registered <= s.layout.Keys
    requires CallStep(s, s', t, b, r) && FreeStarts(s, s', a) && Untouched(s, a)
    ensures QuietFree(s', a)
  {
  }

  lemma QuietAtStart(s: State, s': State, a: AllocId)
    requires Inv(s) && Step(s, s') && FreeStarts(s, s', a) && Untouched(s, a)
    ensures QuietFree(s', a)
  {
    var t, b, r :| StepBy(s, s', t, b, r);
    var s1 := s'.(clock := s.clock);
    StartIsCall(s, s1, t, b, r, a);
    CallStartsQuiet(s, s1, t, b, r, a);
  }

  lemma NextKeepsQuiet(run: seq<State>, i: nat, a: AllocId)
    requires Run(run) && i + 1 < |run|
    ensures QuietFree(run[i], a) ==> QuietFree(run[i + 1], a)
    ensures FreeStarts(run[i], run[i + 1], a) && Untouched(run[i], a) ==> QuietFree(run[i + 1], a)
  {
    RunKeepsInv(run, i);
    assert StepAt(run, i);
    if QuietFree(run[i], a) {
      StepKeepsQuiet(run[i], run[i + 1], a);
    } else if FreeStarts(run[i], run[i + 1], a) && Untouched(run[i], a) {
      QuietAtStart(run[i], run[i + 1], a);
    }
  }

  lemma {:induction false} QuietStays(run: seq<State>, i: nat, j: nat, a: AllocId)
    requires Run(run) && i < j < |run| && FreeStarts(run[i], run[i + 1], a) && Untouched(run[i], a)
    ensures QuietFree(run[j], a)
    decreases j
  {
    NextKeepsQuiet(run, j - 1, a);
    if i + 1 < j { QuietStays(run, i, j - 1, a); }
  }

  lemma QuietIsOpen(s: State, a: AllocId)
    requires QuietFree(s, a) && Waiting(s, a)
    ensures Open(s, a)
  {
    forall t | t in s.threads
      ensures !Filling(s.threads[t].pc, a) && !(s.threads[t].pc.Reserve? && s.threads[t].pc.r.alloc == a)
    {
      assert !Touches(s.threads[t].pc, a);
    }
  }

  /** A free that starts while no fault handler works on the allocation is never held
      up for ever: wherever it waits, the wait can end. */
  lemma QuietFreeCanEnd(run: seq<State>, i: nat, a: AllocId)
    requires Run(run) && i + 1 < |run| && FreeStarts(run[i], run[i + 1], a) && Untouched(run[i], a)
    requires Waiting(Last(run), a)
    ensures CanEnd(run, a)
  {
    QuietStays(run, i, |run| - 1, a);
    QuietIsOpen(Last(run), a);
    var run' := WaitEnds(run, a);
  }

  // ----- A free that is held up -----

  /** One tracked allocation of one byte on one route. */
  function OneByte(): Range { Range(0, 0, 1) }

  function NoSlots(next: nat): Queue {
    Queue(seq(MAX_RANGES, _ => OneByte()), seq(MAX_RANGES, _ => false), next, 0, false)
  }

  /** Thread 0 stores, thread 1 frees. */
  function HeldUp(q: Queue, retiring: set<AllocId>, count: map<AllocId, int>, f: Flush, store: Pc, free: Pc,
                  clock: nat): State
  {
    State(map[0 := Layout(0, 0, 1, true, {})], [q], {0}, retiring, {}, count, 0, 0, f, [], None,
          map[0 := Thread(store, 0), 1 := Thread(free, 0)], clock, [], {})
  }

  /** The store has counted its reference when the free starts; it reserves its slot
      after the free's flush has read the queue. */
  function Stuck(k: nat): State {
    var start, r := NoSlots(0), OneByte();
    if k == 0 then HeldUp(start, {}, map[], NoFlush, Idle, Idle, 0)
    else if k == 1 then HeldUp(start, {}, map[], NoFlush, Count(r), Idle, 1)
    else if k == 2 then HeldUp(start, {}, map[0 := 1], NoFlush, Reserve(r), Idle, 2)
    else if k == 3 then HeldUp(start, {0}, map[0 := 1], NoFlush, Reserve(r), RetireLock(0), 3)
    else if k < 13 then HeldUp(start, {0}, map[0 := 1], Freeing(k), Reserve(r), Flushing, k)
    else HeldUp(NoSlots(1), {0}, map[0 := 1], Freeing(12), Fill(r, 0), Flushing, k)
  }

  function Freeing(k: nat): Flush {
    Flush(1, Retire(0), 0, 0,
          if k == 4 then RouteStart
          else if k == 5 then Scan(0, 0)
          else if k == 6 then LoadFull(0)
          else if k == 7 then Take(0, false, 0, [])
          else if k == 8 then Compact(0, false, [])
          else if k == 9 then ScanPortable([], {0})
          else if k == 10 then ScanPortable([], {})
          else if k == 11 then Send([])
          else WaitReferences)
  }

  lemma StuckStores(k: nat)
    requires k < 2
    ensures Step(Stuck(k), Stuck(k + 1))
  {
    var s, s', r := Stuck(k), Stuck(k + 1), OneByte();
    var s1 := s'.(clock := s.clock);
    if k == 0 {
      assert s1 == Goto(s, 0, Count(r));
    } else {
      assert s1 == Goto(AddPending(s, 0, 1), 0, Reserve(r));
    }
    assert StepBy(s, s', 0, 0, r);
  }

  lemma StuckFrees(k: nat)
    requires 2 <= k < 4
    ensures Step(Stuck(k), Stuck(k + 1))
  {
    var s, s' := Stuck(k), Stuck(k + 1);
    var s1 := s'.(clock := s.clock);
    if k == 2 {
      assert s1 == Goto(s, 1, RetireLock(0)).(retiring := s.retiring + {0});
    } else {
      assert s1 == Goto(s, 1, Flushing).(flush := Freeing(4));
    }
    assert StepBy(s, s', 1, 0, OneByte());
  }

  lemma StuckFlushes(k: nat)
    requires 4 <= k < 12
    ensures Step(Stuck(k), Stuck(k + 1))
  {
    var s, s', r := Stuck(k), Stuck(k + 1), OneByte();
    var s1 := s'.(clock := s.clock);
    assert s1 == SetPhase(s, Freeing(k + 1).phase);
    if k == 8 {
      assert s.queues == s.queues[0 := s.queues[0].(next := 0, start := 0)];
      assert TakeStep(s, s1);
    } else if k == 9 {
      assert s.flush.phase.todo - {0} == {};
      assert PortableStep(s, s1, 0);
    }
    assert FlushStep(s, s1, 1, 0);
    assert StepBy(s, s', 1, 0, r);
  }

  lemma StuckReserves()
    ensures Step(Stuck(12), Stuck(13))
  {
    var s, s', r := Stuck(12), Stuck(13), OneByte();
    var s1 := s'.(clock := s.clock);
    assert s1 == Goto(SetQueue(s, 0, s.queues[0].(next := 1)), 0, Fill(r, 0));
    assert StepBy(s, s', 0, 0, r);
  }

  lemma StuckStarts()
    ensures Init(Stuck(0))
  {
  }

  function StuckRun(): seq<State> { seq(14, (i: nat) => Stuck(i)) }

  /** The free does not always end: a store that is under way when it starts holds it
      up for ever, and every other flush with it. */
  lemma FreeIsHeldUp()
    ensures Run(StuckRun()) && Waiting(Last(StuckRun()), 0) && !CanEnd(StuckRun(), 0)
    ensures FreeStarts(StuckRun()[2], StuckRun()[3], 0) && !Untouched(StuckRun()[2], 0)
  {
    var run := StuckRun();
    StuckStarts();
    forall i | 0 <= i < |run| - 1
      ensures StepAt(run, i)
    {
      if i < 2 {
        StuckStores(i);
      } else if i < 4 {
        StuckFrees(i);
      } else if i < 12 {
        StuckFlushes(i);
      } else {
        StuckReserves();
      }
    }
    var s := Last(run);
    assert s == Stuck(13) && 0 in s.threads && Filling(s.threads[0].pc, 0);
    BoundCannotEnd(run, 0);
    assert run[2] == Stuck(2) && Touches(run[2].threads[0].pc, 0);
  }
}
