/** Lifetimes: an allocation leaves the registry only when no queue slot, flush,
    fault handler or fetch refers to it. */
module DirtyLifetimes {
  import opened Options
  import opened DirtyQueue
  import opened DirtySlots
  import opened DirtyReferences

  /** The fault handler of this thread works on the allocation. */
  predicate Touches(pc: Pc, a: AllocId) {
    match pc
    case Count(r) => r.alloc == a
    case Reserve(r) => r.alloc == a
    case Fill(r, _) => r.alloc == a
    case Publish(r, _) => r.alloc == a
    case Uncount(r) => r.alloc == a
    case MarkFull(r) => r.alloc == a
    case MarkPending(r, _) => r.alloc == a
    case _ => false
  }

  predicate Alive(s: State, r: Range) {
    Known(s, r) && r.alloc in s.registered
  }

  predicate Retired(s: State, a: AllocId) {
    a in s.registered && a in s.retiring && a in s.layout
  }

  predicate PcAlive(s: State, t: Tid, pc: Pc) {
    match pc
    case Count(r) => Alive(s, r) && r.alloc !in s.retiring
    case Reserve(r) => Alive(s, r)
    case Fill(r, _) => Alive(s, r)
    case Publish(r, _) => Alive(s, r)
    case Uncount(r) => Alive(s, r)
    case MarkFull(r) => Alive(s, r)
    case MarkPending(r, _) => Alive(s, r)
    case Holding(a) => a in s.registered && a in s.layout
    case RetireLock(a) => Retired(s, a)
    case RetireHandlers(a) => Retired(s, a) && PendingOf(s, a) == 0
    case RetireErase(a) => Retired(s, a) && PendingOf(s, a) == 0
    case Flushing => s.flush.Flush? && s.flush.tid == t
    case Idle | Ticket(_) => true
  }

  ghost predicate PcsAlive(s: State) {
    forall t :: t in s.threads ==> PcAlive(s, t, s.threads[t].pc)
  }

  ghost predicate SlotsAlive(s: State) {
    forall i :: 0 <= i < |s.queues| ==> QueueAlive(s.registered, s.queues[i])
  }

  ghost predicate QueueAlive(registered: set<AllocId>, q: Queue) {
    forall j :: 0 <= j < |q.ready| && j < |q.ranges| && q.ready[j] ==> q.ranges[j].alloc in registered
  }

  /** The flusher is in its flush, or collects what the server wrote before it reads the
      queue. */
  predicate InFlush(s: State, pc: Pc)
    requires s.flush.Flush?
  {
    pc == Flushing || (s.collector == Some(s.flush.tid) && s.flush.phase == RouteStart)
  }

  /** A collector works on an allocation that nobody has started to free. */
  ghost predicate CollectorOk(s: State) {
    s.collector.Some? ==>
      && s.collector.value in s.threads && InHandler(s.threads[s.collector.value].pc)
      && forall a :: Touches(s.threads[s.collector.value].pc, a) ==> a !in s.retiring
  }

  ghost predicate FlushAlive(s: State) {
    s.flush.Flush? ==>
      && s.flush.tid in s.threads && InFlush(s, s.threads[s.flush.tid].pc)
      && (s.flush.kind.Retire? ==> Retired(s, s.flush.kind.a) && s.layout[s.flush.kind.a].route == s.flush.route)
      && (s.flush.kind.Retire? ==> !s.flush.phase.Again? && !s.flush.phase.LoadEpoch? && !s.flush.phase.StoreEpoch?)
      && (s.flush.kind.Retire? && s.flush.phase == Unlock(true) ==> PendingOf(s, s.flush.kind.a) == 0)
      && HeldAlive(s, Held(s.flush), s.flush.route)
      && (s.flush.phase.ScanFull? ==> s.flush.phase.todo <= OnRoute(s, s.flush.route) + s.retiring)
  }

  /** The windows a flush has taken are of live allocations, and it lets go of them
      before it leaves the route. */
  ghost predicate PortableAlive(s: State) {
    WindowsAlive(s.portable, s.registered, s.layout) && (s.portable == [] || TakesPortable(s.flush))
  }

  ghost predicate WindowsAlive(ws: seq<Range>, registered: set<AllocId>, layout: map<AllocId, Layout>) {
    forall k :: 0 <= k < |ws| ==> ws[k].alloc in registered && ws[k].alloc in layout
  }

  predicate TakesPortable(f: Flush) {
    f.Flush? && (f.phase.ScanPortable? || f.phase.Send? || f.phase.Sent? || f.phase.Drop?)
  }

  ghost predicate HeldAlive(s: State, held: seq<Range>, i: nat) {
    forall k :: 0 <= k < |held| ==> AliveOn(s, held[k], i)
  }

  predicate AliveOn(s: State, x: Range, i: nat) {
    Alive(s, x) && RouteOf(s, x) == i
  }

  /** The allocation a thread is freeing. */
  function Retiree(s: State, t: Tid): set<AllocId>
    requires t in s.threads
  {
    if s.flush.Flush? && s.flush.tid == t && s.flush.kind.Retire? then {s.flush.kind.a}
    else
      match s.threads[t].pc
      case RetireLock(a) => {a}
      case RetireHandlers(a) => {a}
      case RetireErase(a) => {a}
      case _ => {}
  }

  ghost predicate FreesDistinct(s: State) {
    forall t, u :: t in s.threads && u in s.threads && t != u ==> Retiree(s, t) !! Retiree(s, u)
  }

  /** Once the handlers have drained, none works on the allocation again. */
  ghost predicate EraseClear(s: State) {
    forall t, u :: t in s.threads && u in s.threads && s.threads[t].pc.RetireErase? ==>
      !Touches(s.threads[u].pc, s.threads[t].pc.a)
  }

  ghost predicate Lifetimes(s: State) {
    && PcsAlive(s) && SlotsAlive(s) && FlushAlive(s) && PortableAlive(s) && FreesDistinct(s) && EraseClear(s)
    && CollectorOk(s)
    && s.registered <= s.layout.Keys
  }

  // ----- A counted reference keeps the count positive -----

  lemma ReferrerCounts(s: State, t: Tid, a: AllocId)
    requires RouteBounds(s) && Conserved(s) && a in s.layout && t in s.threads && Refers(s.threads[t].pc, a)
    ensures PendingOf(s, a) > 0
  {
    assert t in RefThreads(s.threads, a);
  }

  lemma HeldCounts(s: State, x: Range)
    requires RouteBounds(s) && Conserved(s) && x.alloc in s.layout && x in Taken(s)
    ensures PendingOf(s, x.alloc) > 0
  {
    CountPositive(Taken(s), x);
  }

  lemma SlotCounts(s: State, i: nat, j: nat)
    requires RouteBounds(s) && Conserved(s) && QueuesOk(s) && i < |s.queues|
    requires j < |s.queues[i].ready| && j < |s.queues[i].ranges| && s.queues[i].ready[j]
    ensures s.queues[i].ranges[j].alloc in s.layout && PendingOf(s, s.queues[i].ranges[j].alloc) > 0
  {
    assert QueueOkAt(s, i);
    assert j in ReadyRefs(s.queues[i], s.queues[i].ranges[j].alloc);
  }

  // ----- Preservation -----

  /** Threads other than `t` stay alive when nothing is erased and no count that
      has reached zero changes. */
  lemma OthersStayAlive(s: State, s': State, t: Tid)
    requires PcsAlive(s) && t in s.threads && t in s'.threads
    requires s'.layout == s.layout && |s'.queues| == |s.queues| && s'.registered == s.registered
    requires s.retiring <= s'.retiring
    requires s'.threads == s.threads[t := s'.threads[t]]
    requires s'.flush == s.flush || (s.flush.Flush? && s.flush.tid == t && (s'.flush.Flush? ==> s'.flush.tid == t))
             || (s.flush == NoFlush && s'.flush.Flush? && s'.flush.tid == t)
    requires forall a :: a in s.retiring && PendingOf(s, a) == 0 ==> PendingOf(s', a) == 0
    requires forall a :: a in s'.retiring && a !in s.retiring ==> !BeforeCount(s, a)
    requires PcAlive(s', t, s'.threads[t].pc)
    ensures PcsAlive(s')
  {
    forall u | u in s'.threads && u != t
      ensures PcAlive(s', u, s'.threads[u].pc)
    {
      assert PcAlive(s, u, s.threads[u].pc);
    }
  }

  /** A step after which the flusher holds no new range. */
  lemma FlushStaysAlive(s: State, s': State)
    requires FlushAlive(s) && s'.layout == s.layout && |s'.queues| == |s.queues| && s'.registered == s.registered
    requires s.retiring <= s'.retiring && s'.flush == s.flush
    requires s.flush.Flush? ==> s.flush.tid in s'.threads && InFlush(s', s'.threads[s.flush.tid].pc)
    requires forall a :: a in s.retiring && PendingOf(s, a) == 0 ==> PendingOf(s', a) == 0
    ensures FlushAlive(s')
  {
    if s.flush.Flush? {
      assert HeldAlive(s, Held(s.flush), s.flush.route);
      forall k | 0 <= k < |Held(s.flush)|
        ensures AliveOn(s', Held(s.flush)[k], s.flush.route)
      {
        assert AliveOn(s, Held(s.flush)[k], s.flush.route);
      }
    }
  }

  lemma FreesStayDistinct(s: State, s': State, t: Tid)
    requires FreesDistinct(s) && t in s.threads && t in s'.threads
    requires s'.threads == s.threads[t := s'.threads[t]]
    requires s'.flush == s.flush || (s.flush.Flush? && s.flush.tid == t && (s'.flush.Flush? ==> s'.flush.tid == t))
             || (s.flush == NoFlush && s'.flush.Flush? && s'.flush.tid == t)
    requires Retiree(s', t) <= Retiree(s, t)
    ensures FreesDistinct(s')
  {
    forall u, v | u in s'.threads && v in s'.threads && u != v
      ensures Retiree(s', u) !! Retiree(s', v)
    {
      assert Retiree(s, u) !! Retiree(s, v);
    }
  }

  lemma EraseStaysClear(s: State, s': State, t: Tid)
    requires EraseClear(s) && t in s.threads && t in s'.threads
    requires s'.threads == s.threads[t := s'.threads[t]] && !s'.threads[t].pc.RetireErase?
    requires forall a :: Touches(s'.threads[t].pc, a) ==> Touches(s.threads[t].pc, a)
    ensures EraseClear(s')
  {
  }

  /** A producer starts no free, and goes on with its range or finishes. */
  lemma ProducerKeepsFrees(s: State, s': State, t: Tid)
    requires FreesDistinct(s) && EraseClear(s) && ProducerStep(s, s', t)
    ensures FreesDistinct(s') && EraseClear(s')
  {
    FreesStayDistinct(s, s', t);
    EraseStaysClear(s, s', t);
  }

  lemma ProducerKeepsCollector(s: State, s': State, t: Tid)
    requires CollectorOk(s) && ProducerStep(s, s', t)
    ensures CollectorOk(s')
  {
  }

  lemma CountKeepsQueues(s: State, s': State, t: Tid)
    requires SlotsAlive(s) && t in s.threads && CountStep(s, s', t)
    ensures SlotsAlive(s')
  {
    forall i | 0 <= i < |s'.queues|
      ensures QueueAlive(s'.registered, s'.queues[i])
    {
      assert QueueAlive(s.registered, s.queues[i]);
    }
  }

  lemma CountKeepsPcs(s: State, s': State, t: Tid)
    requires PcsAlive(s) && RouteBounds(s) && t in s.threads && CountStep(s, s', t)
    ensures PcsAlive(s')
  {
    assert PcAlive(s, t, s.threads[t].pc);
    OthersStayAlive(s, s', t);
  }

  lemma CountKeepsFlush(s: State, s': State, t: Tid)
    requires PcsAlive(s) && FlushAlive(s) && RouteBounds(s) && t in s.threads && CountStep(s, s', t)
    ensures FlushAlive(s')
  {
    assert PcAlive(s, t, s.threads[t].pc);
    FlushStaysAlive(s, s');
  }

  lemma CountKeepsPortable(s: State, s': State, t: Tid)
    requires PortableAlive(s) && t in s.threads && CountStep(s, s', t)
    ensures PortableAlive(s') && s'.registered == s.registered && s'.layout == s.layout
  {
  }

  lemma CountKeepsLifetimes(s: State, s': State, t: Tid)
    requires Lifetimes(s) && RouteBounds(s) && ProducerStep(s, s', t) && CountStep(s, s', t)
    ensures Lifetimes(s')
  {
    CountKeepsPcs(s, s', t);
    CountKeepsQueues(s, s', t);
    CountKeepsFlush(s, s', t);
    CountKeepsPortable(s, s', t);
    ProducerKeepsFrees(s, s', t);
    ProducerKeepsCollector(s, s', t);
  }

  lemma SlotKeepsLifetimes(s: State, s': State, t: Tid)
    requires Lifetimes(s) && t in s.threads && SlotStep(s, s', t) && SlotOk(s, s.threads[t].pc)
    ensures Lifetimes(s')
  {
    assert PcAlive(s, t, s.threads[t].pc);
    OthersStayAlive(s, s', t);
    FlushStaysAlive(s, s');
    FreesStayDistinct(s, s', t);
    EraseStaysClear(s, s', t);
    forall i | 0 <= i < |s'.queues|
      ensures QueueAlive(s'.registered, s'.queues[i])
    {
      assert QueueAlive(s.registered, s.queues[i]);
    }
  }

  lemma OverflowKeepsPcs(s: State, s': State, t: Tid)
    requires PcsAlive(s) && RouteBounds(s) && Conserved(s) && t in s.threads && OverflowStep(s, s', t)
    ensures PcsAlive(s')
  {
    assert PcAlive(s, t, s.threads[t].pc);
    if s.threads[t].pc.Uncount? {
      ReferrerCounts(s, t, s.threads[t].pc.r.alloc);
    }
    OthersStayAlive(s, s', t);
  }

  lemma OverflowKeepsFlush(s: State, s': State, t: Tid)
    requires PcsAlive(s) && FlushAlive(s) && RouteBounds(s) && Conserved(s) && t in s.threads && OverflowStep(s, s', t)
    ensures FlushAlive(s')
  {
    assert PcAlive(s, t, s.threads[t].pc);
    if s.threads[t].pc.Uncount? {
      ReferrerCounts(s, t, s.threads[t].pc.r.alloc);
    }
    FlushStaysAlive(s, s');
  }

  lemma OverflowKeepsPortable(s: State, s': State, t: Tid)
    requires PortableAlive(s) && t in s.threads && OverflowStep(s, s', t)
    ensures PortableAlive(s') && s'.registered == s.registered && s'.layout == s.layout
  {
  }

  lemma OverflowKeepsLifetimes(s: State, s': State, t: Tid)
    requires Lifetimes(s) && RouteBounds(s) && Conserved(s) && ProducerStep(s, s', t) && OverflowStep(s, s', t)
    ensures Lifetimes(s')
  {
    OverflowKeepsPcs(s, s', t);
    OverflowKeepsFlush(s, s', t);
    OverflowKeepsQueues(s, s', t);
    OverflowKeepsPortable(s, s', t);
    ProducerKeepsFrees(s, s', t);
    ProducerKeepsCollector(s, s', t);
  }

  lemma OverflowKeepsQueues(s: State, s': State, t: Tid)
    requires Lifetimes(s) && t in s.threads && OverflowStep(s, s', t)
    ensures SlotsAlive(s')
  {
    forall i | 0 <= i < |s'.queues|
      ensures QueueAlive(s'.registered, s'.queues[i])
    {
      assert QueueAlive(s.registered, s.queues[i]);
    }
  }

  /** What the flusher must still show after one of its own steps. */
  lemma FlusherKeepsLifetimes(s: State, s': State)
    requires Lifetimes(s) && s.flush.Flush? && FlushAlive(s') && PortableAlive(s')
    requires s'.flush.Flush? && s'.flush.tid == s.flush.tid && s'.flush.kind == s.flush.kind
    requires s'.layout == s.layout && |s'.queues| == |s.queues| && s'.registered == s.registered
    requires s'.retiring == s.retiring && s'.threads == s.threads && s'.collector == s.collector
    requires forall a :: a in s.retiring && PendingOf(s, a) == 0 ==> PendingOf(s', a) == 0
    requires SlotsAlive(s')
    ensures Lifetimes(s')
  {
    OthersStayAlive(s, s', s.flush.tid);
    FreesStayDistinct(s, s', s.flush.tid);
  }

  lemma ScanKeepsLifetimes(s: State, s': State, t: Tid)
    requires Lifetimes(s) && RouteBounds(s) && t in s.threads && s.flush.Flush? && ScanStep(s, s', t)
    requires s.flush.tid == t && s.threads[t].pc == Flushing
    ensures Lifetimes(s')
  {
    assert HeldAlive(s, Held(s.flush), s.flush.route);
    FlusherKeepsLifetimes(s, s');
  }

  lemma TakeKeepsLifetimes(s: State, s': State)
    requires Lifetimes(s) && s.flush.Flush? && TakeStep(s, s') && QueueOkAt(s, s.flush.route)
    ensures Lifetimes(s')
  {
    forall i | 0 <= i < |s'.queues|
      ensures QueueAlive(s'.registered, s'.queues[i])
    {
      assert QueueAlive(s.registered, s.queues[i]);
    }
    assert QueueAlive(s.registered, s.queues[s.flush.route]);
    FlusherKeepsLifetimes(s, s');
  }

  lemma SweepKeepsLifetimes(s: State, s': State, a: AllocId)
    requires Lifetimes(s) && RouteBounds(s) && s.flush.Flush? && s.flush.phase.ScanFull? && SweepStep(s, s', a)
    ensures Lifetimes(s')
  {
    assert HeldAlive(s, Held(s.flush), s.flush.route);
    FlusherKeepsLifetimes(s, s');
  }

  lemma TakeFullKeepsLifetimes(s: State, s': State)
    requires Lifetimes(s) && s.flush.Flush? && s.flush.phase.TakeFull? && TakeFullStep(s, s')
    ensures Lifetimes(s')
  {
    forall i | 0 <= i < |s'.queues|
      ensures QueueAlive(s'.registered, s'.queues[i])
    {
      assert QueueAlive(s.registered, s.queues[i]);
    }
    FlusherKeepsLifetimes(s, s');
  }

  lemma PortableKeepsLifetimes(s: State, s': State, a: AllocId)
    requires Lifetimes(s) && RouteBounds(s) && s.flush.Flush? && s.flush.phase.ScanPortable? && PortableStep(s, s', a)
    ensures Lifetimes(s')
  {
    FlusherKeepsLifetimes(s, s');
  }

  lemma SendKeepsLifetimes(s: State, s': State)
    requires Lifetimes(s) && s.flush.Flush? && SendStep(s, s')
    ensures Lifetimes(s')
  {
    assert HeldAlive(s, Held(s.flush), s.flush.route);
    FlusherKeepsLifetimes(s, s');
  }

  lemma HeldShrinks(s: State, s': State, held: seq<Range>, i: nat)
    requires held != [] && HeldAlive(s, held, i)
    requires s'.layout == s.layout && |s'.queues| == |s.queues| && s'.registered == s.registered
    ensures HeldAlive(s', held[1..], i)
  {
    forall k | 0 <= k < |held[1..]|
      ensures AliveOn(s', held[1..][k], i)
    {
      assert AliveOn(s, held[k + 1], i);
    }
  }

  lemma DropKeepsQueues(s: State, s': State)
    requires Lifetimes(s) && s.flush.Flush? && s.flush.phase.Drop? && DropStep(s, s')
    ensures SlotsAlive(s')
  {
    forall i | 0 <= i < |s'.queues|
      ensures QueueAlive(s'.registered, s'.queues[i])
    {
      assert QueueAlive(s.registered, s.queues[i]);
    }
  }

  lemma DropHeldKeepsLifetimes(s: State, s': State)
    requires Lifetimes(s) && RouteBounds(s) && Conserved(s) && s.flush.Flush? && s.flush.phase.Drop? && DropStep(s, s')
    requires s.flush.phase.held != []
    ensures Lifetimes(s')
  {
    DropKeepsQueues(s, s');
    var held := s.flush.phase.held;
    assert held[0] in Held(s.flush) && held[0] in Taken(s) && AliveOn(s, held[0], s.flush.route);
    HeldCounts(s, held[0]);
    HeldShrinks(s, s', held, s.flush.route);
    FlusherKeepsLifetimes(s, s');
  }

  lemma DropWindowKeepsLifetimes(s: State, s': State)
    requires Lifetimes(s) && RouteBounds(s) && Conserved(s) && s.flush.Flush? && s.flush.phase.Drop? && DropStep(s, s')
    requires s.flush.phase.held == [] && s.portable != []
    ensures Lifetimes(s')
  {
    DropKeepsQueues(s, s');
    assert Taken(s) == s.portable;
    HeldCounts(s, s.portable[0]);
    FlusherKeepsLifetimes(s, s');
  }

  lemma DropKeepsLifetimes(s: State, s': State)
    requires Lifetimes(s) && RouteBounds(s) && Conserved(s) && s.flush.Flush? && s.flush.phase.Drop? && DropStep(s, s')
    ensures Lifetimes(s')
  {
    if s.flush.phase.held != [] {
      DropHeldKeepsLifetimes(s, s');
    } else if s.portable != [] {
      DropWindowKeepsLifetimes(s, s');
    } else {
      DropKeepsQueues(s, s');
      FlusherKeepsLifetimes(s, s');
    }
  }

  lemma FinishKeepsLifetimes(s: State, s': State, t: Tid)
    requires Lifetimes(s) && t in s.threads && s.flush.Flush? && s.flush.tid == t && FinishStep(s, s', t)
    ensures Lifetimes(s')
  {
    if s.flush.phase.Unlock? {
      OthersStayAlive(s, s', t);
      FreesStayDistinct(s, s', t);
      EraseStaysClear(s, s', t);
    } else {
      FlusherKeepsLifetimes(s, s');
    }
  }

  lemma LockKeepsLifetimes(s: State, s': State, t: Tid)
    requires Lifetimes(s) && RouteBounds(s) && LockStep(s, s', t)
    ensures Lifetimes(s')
  {
    assert PcAlive(s, t, s.threads[t].pc);
    OthersStayAlive(s, s', t);
    FreesStayDistinct(s, s', t);
    EraseStaysClear(s, s', t);
  }

  /** No free in progress frees an allocation that is not retiring. */
  lemma RetireesRetire(s: State, t: Tid, a: AllocId)
    requires PcsAlive(s) && FlushAlive(s) && t in s.threads && a in Retiree(s, t)
    ensures a in s.retiring
  {
    assert PcAlive(s, t, s.threads[t].pc);
  }

  lemma CallKeepsFrees(s: State, s': State, t: Tid, a: AllocId, r: Range)
    requires PcsAlive(s) && FlushAlive(s) && FreesDistinct(s) && CallStep(s, s', t, a, r)
    ensures FreesDistinct(s')
  {
    forall u, v | u in s'.threads && v in s'.threads && u != v
      ensures Retiree(s', u) !! Retiree(s', v)
    {
      assert Retiree(s, u) !! Retiree(s, v);
      if a in Retiree(s, u) { RetireesRetire(s, u, a); }
      if a in Retiree(s, v) { RetireesRetire(s, v, a); }
    }
  }

  lemma CallKeepsErase(s: State, s': State, t: Tid, a: AllocId, r: Range)
    requires PcsAlive(s) && EraseClear(s) && CallStep(s, s', t, a, r)
    ensures EraseClear(s')
  {
    forall u, v | u in s'.threads && v in s'.threads && s'.threads[u].pc.RetireErase?
      ensures !Touches(s'.threads[v].pc, s'.threads[u].pc.a)
    {
      assert PcAlive(s, u, s.threads[u].pc);
    }
  }

  lemma CallKeepsLifetimes(s: State, s': State, t: Tid, a: AllocId, r: Range)
    requires Lifetimes(s) && CallStep(s, s', t, a, r)
    ensures Lifetimes(s')
  {
    OthersStayAlive(s, s', t);
    FlushStaysAlive(s, s');
    CallKeepsFrees(s, s', t, a, r);
    CallKeepsErase(s, s', t, a, r);
  }

  lemma CollectKeepsLifetimes(s: State, s': State, t: Tid, r: Range)
    requires Lifetimes(s) && CollectStep(s, s', t, r)
    ensures Lifetimes(s')
  {
    OthersStayAlive(s, s', t);
    FlushStaysAlive(s, s');
    FreesStayDistinct(s, s', t);
    CollectKeepsErase(s, s', t, r);
  }

  lemma CollectKeepsErase(s: State, s': State, t: Tid, r: Range)
    requires PcsAlive(s) && EraseClear(s) && CollectStep(s, s', t, r)
    ensures EraseClear(s')
  {
    forall u, v | u in s'.threads && v in s'.threads && s'.threads[u].pc.RetireErase?
      ensures !Touches(s'.threads[v].pc, s'.threads[u].pc.a)
    {
      assert PcAlive(s, u, s.threads[u].pc);
    }
  }

  lemma FetchEndsKeepsLifetimes(s: State, s': State, t: Tid)
    requires Lifetimes(s) && RouteBounds(s) && Conserved(s) && ReleaseStep(s, s', t) && s.threads[t].pc.Holding?
    ensures Lifetimes(s')
  {
    assert PcAlive(s, t, s.threads[t].pc);
    ReferrerCounts(s, t, s.threads[t].pc.a);
    EraseStaysClear(s, s', t);
    OthersStayAlive(s, s', t);
    FlushStaysAlive(s, s');
    FreesStayDistinct(s, s', t);
  }

  lemma HandlersDrain(s: State, s': State, t: Tid)
    requires PcsAlive(s) && CollectorOk(s) && EraseClear(s) && ReleaseStep(s, s', t) && s.threads[t].pc.RetireHandlers?
    ensures EraseClear(s')
  {
    assert PcAlive(s, t, s.threads[t].pc);
    forall u, v | u in s'.threads && v in s'.threads && s'.threads[u].pc.RetireErase?
      ensures !Touches(s'.threads[v].pc, s'.threads[u].pc.a)
    {
      assert s.collector == Some(v) ==> !Touches(s.threads[v].pc, s.threads[t].pc.a);
    }
  }

  lemma DrainKeepsLifetimes(s: State, s': State, t: Tid)
    requires Lifetimes(s) && ReleaseStep(s, s', t) && s.threads[t].pc.RetireHandlers?
    ensures Lifetimes(s')
  {
    assert PcAlive(s, t, s.threads[t].pc);
    HandlersDrain(s, s', t);
    OthersStayAlive(s, s', t);
    FlushStaysAlive(s, s');
    FreesStayDistinct(s, s', t);
  }

  predicate ReadyAt(q: Queue, j: int) {
    0 <= j < |q.ready| && j < |q.ranges| && q.ready[j]
  }

  lemma TakenIsCounted(s: State, a: AllocId)
    requires RouteBounds(s) && Conserved(s) && a in s.layout && PendingOf(s, a) == 0
    ensures forall k :: 0 <= k < |Taken(s)| ==> Taken(s)[k].alloc != a
  {
    forall k | 0 <= k < |Taken(s)|
      ensures Taken(s)[k].alloc != a
    {
      if Taken(s)[k].alloc == a { HeldCounts(s, Taken(s)[k]); }
    }
  }

  /** When a free erases its allocation, nothing refers to it any more: no ready
      slot, no range of a flush, no fault handler and no fetch. */
  lemma EraseIsUnreferenced(s: State, t: Tid, a: AllocId)
    requires Slots(s) && Conserved(s) && Lifetimes(s)
    requires t in s.threads && s.threads[t].pc == RetireErase(a)
    ensures forall i, j :: 0 <= i < |s.queues| && ReadyAt(s.queues[i], j) ==> s.queues[i].ranges[j].alloc != a
    ensures forall k :: 0 <= k < |Taken(s)| ==> Taken(s)[k].alloc != a
    ensures forall u :: u in s.threads ==> !Touches(s.threads[u].pc, a) && s.threads[u].pc != Holding(a)
  {
    assert PcAlive(s, t, s.threads[t].pc);
    forall i, j | 0 <= i < |s.queues| && ReadyAt(s.queues[i], j)
      ensures s.queues[i].ranges[j].alloc != a
    {
      SlotCounts(s, i, j);
    }
    TakenIsCounted(s, a);
    forall u | u in s.threads
      ensures s.threads[u].pc != Holding(a)
    {
      if s.threads[u].pc == Holding(a) { ReferrerCounts(s, u, a); }
    }
  }

  lemma EraseKeepsLifetimes(s: State, s': State, t: Tid)
    requires Slots(s) && Conserved(s) && Lifetimes(s) && ReleaseStep(s, s', t)
    requires s.threads[t].pc.RetireErase?
    ensures Lifetimes(s')
  {
    ErasePcs(s, s', t);
    EraseFlush(s, s', t);
    FreesStayDistinct(s, s', t);
    EraseStaysClear(s, s', t);
  }

  lemma ErasePcs(s: State, s': State, t: Tid)
    requires Slots(s) && Conserved(s) && Lifetimes(s) && ReleaseStep(s, s', t) && s.threads[t].pc.RetireErase?
    ensures PcsAlive(s') && SlotsAlive(s')
  {
    EraseIsUnreferenced(s, t, s.threads[t].pc.a);
    forall u | u in s'.threads
      ensures PcAlive(s', u, s'.threads[u].pc)
    {
      assert PcAlive(s, u, s.threads[u].pc);
      assert u != t ==> Retiree(s, t) !! Retiree(s, u);
    }
    forall i | 0 <= i < |s'.queues|
      ensures QueueAlive(s'.registered, s'.queues[i])
    {
      assert QueueAlive(s.registered, s.queues[i]);
    }
  }

  lemma EraseTaken(s: State, s': State, t: Tid)
    requires Slots(s) && Conserved(s) && Lifetimes(s) && ReleaseStep(s, s', t) && s.threads[t].pc.RetireErase?
    ensures PortableAlive(s')
    ensures s.flush.Flush? ==> HeldAlive(s', Held(s.flush), s.flush.route)
  {
    var a := s.threads[t].pc.a;
    assert PcAlive(s, t, s.threads[t].pc);
    TakenIsCounted(s, a);
    forall k | 0 <= k < |s.portable|
      ensures s.portable[k].alloc != a
    {
      assert Taken(s)[|Held(s.flush)| + k] == s.portable[k];
    }
    if s.flush.Flush? {
      forall k | 0 <= k < |Held(s.flush)|
        ensures AliveOn(s', Held(s.flush)[k], s.flush.route)
      {
        assert AliveOn(s, Held(s.flush)[k], s.flush.route) && Taken(s)[k] == Held(s.flush)[k];
      }
    }
  }

  lemma EraseFlush(s: State, s': State, t: Tid)
    requires Slots(s) && Conserved(s) && Lifetimes(s) && ReleaseStep(s, s', t) && s.threads[t].pc.RetireErase?
    ensures FlushAlive(s') && PortableAlive(s')
  {
    EraseTaken(s, s', t);
    if s.flush.Flush? {
      assert Retiree(s, t) !! Retiree(s, s.flush.tid);
    }
  }

  lemma ProducerKeepsLifetimes(s: State, s': State, t: Tid)
    requires Slots(s) && Conserved(s) && Lifetimes(s) && ProducerStep(s, s', t)
    ensures Lifetimes(s')
  {
    match s.threads[t].pc {
      case Count(_) | Reserve(_) | Ticket(_) => CountKeepsLifetimes(s, s', t);
      case Fill(_, _) | Publish(_, _) => SlotKeepsLifetimes(s, s', t);
      case _ => OverflowKeepsLifetimes(s, s', t);
    }
  }

  lemma FlushKeepsLifetimes(s: State, s': State, t: Tid, a: AllocId)
    requires Slots(s) && Conserved(s) && Lifetimes(s) && FlushStep(s, s', t, a)
    ensures Lifetimes(s')
  {
    match s.flush.phase {
      case Again | LoadEpoch | RouteStart | Scan(_, _) | LoadFull(_) => ScanKeepsLifetimes(s, s', t);
      case Take(_, _, _, _) | Compact(_, _, _) =>
        assert QueueOkAt(s, s.flush.route);
        TakeKeepsLifetimes(s, s');
      case TakeFull(_) => TakeFullKeepsLifetimes(s, s');
      case ScanFull(_, _) => SweepKeepsLifetimes(s, s', a);
      case ScanPortable(_, _) => PortableKeepsLifetimes(s, s', a);
      case Send(_) | Sent(_, _) => SendKeepsLifetimes(s, s');
      case Drop(_, _) => DropKeepsLifetimes(s, s');
      case _ => FinishKeepsLifetimes(s, s', t);
    }
  }

  lemma MoveKeepsLifetimes(s: State, s': State, t: Tid, a: AllocId, r: Range)
    requires Slots(s) && Conserved(s) && Lifetimes(s) && Move(s, s', t, a, r)
    ensures Lifetimes(s')
  {
    if ProducerStep(s, s', t) {
      ProducerKeepsLifetimes(s, s', t);
    } else if FlushStep(s, s', t, a) {
      FlushKeepsLifetimes(s, s', t, a);
    } else if LockStep(s, s', t) {
      LockKeepsLifetimes(s, s', t);
    } else if CallStep(s, s', t, a, r) {
      CallKeepsLifetimes(s, s', t, a, r);
    } else if CollectStep(s, s', t, r) {
      CollectKeepsLifetimes(s, s', t, r);
    } else if s.threads[t].pc.RetireErase? {
      EraseKeepsLifetimes(s, s', t);
    } else if s.threads[t].pc.Holding? {
      FetchEndsKeepsLifetimes(s, s', t);
    } else {
      DrainKeepsLifetimes(s, s', t);
    }
  }
}
