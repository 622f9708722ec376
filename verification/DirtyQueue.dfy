/** Publication and flushing of dirty host ranges (cuda_client_memcpy.cpp). The
    fault handlers of any number of threads publish ranges into one lock-free
    slot queue per route, or set full_dirty when it is full; flushers, which
    exclude each other by lupine_host_flush_mutex, drain every route, send the
    ranges and advance the acknowledged epoch. Each atomic access is one step. */
module DirtyQueue {
  import opened Options

  type Tid = nat
  type AllocId = nat

  /** LUPINE_MAX_MANAGED_HOST_DIRTY_RANGES. */
  const MAX_RANGES: nat := 64 * 1024

  datatype Range = Range(alloc: AllocId, start: nat, end: nat)

  /** One lupine_dirty_host_range_queue; its mutex is implied by the flush mutex. */
  datatype Queue = Queue(ranges: seq<Range>, ready: seq<bool>, next: nat, start: nat,
                         fullPending: bool)

  /** Where an allocation lives; fixed for its lifetime, and never reused. `tracked`
      says that its stores fault, `mapped` on which routes it has a backing. */
  datatype Layout = Layout(route: nat, base: nat, size: nat, tracked: bool, mapped: set<nat>)

  /** History: a range published at `time` by a thread, and its ticket once drawn. */
  datatype Publication = Publication(range: Range, time: nat, ticket: nat, tid: Tid)

  /** History: the server acknowledged contents read at `readAt` or later. */
  datatype Ack = Ack(range: Range, readAt: nat)

  datatype Pc =
    | Idle
    // lupine_queue_dirty_host_range
    | Count(r: Range) | Reserve(r: Range) | Fill(r: Range, slot: nat) | Publish(r: Range, slot: nat)
    | Uncount(r: Range) | MarkFull(r: Range) | MarkPending(r: Range, pub: nat) | Ticket(pub: nat)
    // a reference held across a demand fetch or a fallback copy
    | Holding(a: AllocId)
    // a flush, whose progress is in State.flush
    | Flushing
    // lupine_free_host_allocation
    | RetireLock(a: AllocId) | RetireHandlers(a: AllocId) | RetireErase(a: AllocId)

  datatype Thread = Thread(pc: Pc, required: nat)

  /** Who flushes: lupine_prepare_rpc, lupine_flush_dirty_host_pages_to_server, or
      lupine_drain_retiring_dirty_ranges on the route of one allocation. */
  datatype Kind = Prepare | Server | Retire(a: AllocId)

  datatype Phase =
    | Again | LoadEpoch | RouteStart
    | Scan(reserved: nat, end: nat)
    | LoadFull(end: nat)
    | Take(end: nat, hasFull: bool, cur: nat, held: seq<Range>)
    | Compact(end: nat, hasFull: bool, held: seq<Range>)
    | TakeFull(held: seq<Range>)
    | ScanFull(held: seq<Range>, todo: set<AllocId>)
    | ScanPortable(held: seq<Range>, todo: set<AllocId>)
    | Send(held: seq<Range>)
    | Sent(held: seq<Range>, readAt: nat)
    | Drop(held: seq<Range>, ok: bool)
    | StoreEpoch | WaitReferences | Unlock(ok: bool)

  datatype Flush =
    | NoFlush
    | Flush(tid: Tid, kind: Kind, epoch: nat, route: nat, phase: Phase)

  /** `registered`, `retiring` and `fullDirty` are the allocation registry and the
      per-allocation flags; `pending` is pending_dirty_ranges; `portable` are the whole
      windows the flush has taken of untracked and portable registrations; `collector`
      publishes a range the server wrote, with the allocation mutex held. */
  datatype State = State(layout: map<AllocId, Layout>, queues: seq<Queue>,
                         registered: set<AllocId>, retiring: set<AllocId>, fullDirty: set<AllocId>,
                         pending: map<AllocId, int>, epoch: nat, flushed: nat,
                         flush: Flush, portable: seq<Range>, collector: Option<Tid>,
                         threads: map<Tid, Thread>,
                         clock: nat, pubs: seq<Publication>, acks: set<Ack>)

  predicate EmptyQueue(q: Queue) {
    && |q.ranges| == |q.ready| == MAX_RANGES
    && q.next == 0 && q.start == 0 && !q.fullPending
    && forall j :: 0 <= j < |q.ready| ==> !q.ready[j]
  }

  predicate Init(s: State) {
    && (forall i :: 0 <= i < |s.queues| ==> EmptyQueue(s.queues[i]))
    && (forall a :: a in s.layout ==> s.layout[a].route < |s.queues| && s.layout[a].size > 0)
    && s.registered == s.layout.Keys && s.retiring == {} && s.fullDirty == {} && s.pending == map[]
    && s.epoch == 0 && s.flushed == 0 && s.flush == NoFlush && s.portable == [] && s.collector == None
    && (forall t :: t in s.threads ==> s.threads[t] == Thread(Idle, 0))
    && s.pubs == [] && s.acks == {}
  }

  // ----- Steps of the fault handler -----

  function Goto(s: State, t: Tid, pc: Pc): State
    requires t in s.threads
  {
    s.(threads := s.threads[t := s.threads[t].(pc := pc)])
  }

  /** The range lies in one allocation of the layout. */
  predicate Known(s: State, r: Range) {
    && r.alloc in s.layout
    && s.layout[r.alloc].route < |s.queues|
    && s.layout[r.alloc].base <= r.start < r.end <= s.layout[r.alloc].base + s.layout[r.alloc].size
  }

  function RouteOf(s: State, r: Range): nat
    requires Known(s, r)
  {
    s.layout[r.alloc].route
  }

  function SetQueue(s: State, i: nat, q: Queue): State
    requires i < |s.queues|
  {
    s.(queues := s.queues[i := q])
  }

  function PendingOf(s: State, a: AllocId): int {
    if a in s.pending then s.pending[a] else 0
  }

  function AddPending(s: State, a: AllocId, n: int): State {
    s.(pending := s.pending[a := PendingOf(s, a) + n])
  }

  function Published(s: State, t: Tid, r: Range): seq<Publication> {
    s.pubs + [Publication(r, s.clock, 0, t)]
  }

  /** Where a thread goes on after a publication: a flusher that collects, to its flush. */
  function Base(s: State, t: Tid): Pc { if s.flush.Flush? && s.flush.tid == t then Flushing else Idle }

  /** Counts the reference, reserves a slot, and draws the ticket at the end. */
  predicate CountStep(s: State, s': State, t: Tid)
    requires t in s.threads
  {
    match s.threads[t].pc
    case Count(r) => s' == Goto(AddPending(s, r.alloc, 1), t, Reserve(r))
    case Reserve(r) =>
      && Known(s, r)
      && var i := RouteOf(s, r);
         var q := s.queues[i];
         s' == if q.next < MAX_RANGES
               then Goto(SetQueue(s, i, q.(next := q.next + 1)), t, Fill(r, q.next))
               else Goto(s, t, Uncount(r))
    case Ticket(k) =>
      && k < |s.pubs|
      && s' == s.(epoch := s.epoch + 1,
                  pubs := s.pubs[k := s.pubs[k].(ticket := s.epoch + 1)],
                  collector := if s.collector == Some(t) then None else s.collector,
                  threads := s.threads[t := Thread(Base(s, t), s.epoch + 1)])
    case _ => false
  }

  /** Fills the reserved slot and makes it ready. */
  predicate SlotStep(s: State, s': State, t: Tid)
    requires t in s.threads
  {
    match s.threads[t].pc
    case Fill(r, slot) =>
      && Known(s, r)
      && var i := RouteOf(s, r);
         var q := s.queues[i];
         && slot < |q.ranges|
         && s' == Goto(SetQueue(s, i, q.(ranges := q.ranges[slot := r])), t, Publish(r, slot))
    case Publish(r, slot) =>
      && Known(s, r)
      && var i := RouteOf(s, r);
         var q := s.queues[i];
         && slot < |q.ready|
         && s' == Goto(SetQueue(s, i, q.(ready := q.ready[slot := true])), t, Ticket(|s.pubs|))
                  .(pubs := Published(s, t, r))
    case _ => false
  }

  /** The queue is full: give the reference back and mark the whole allocation. */
  predicate OverflowStep(s: State, s': State, t: Tid)
    requires t in s.threads
  {
    match s.threads[t].pc
    case Uncount(r) => s' == Goto(AddPending(s, r.alloc, -1), t, MarkFull(r))
    case MarkFull(r) =>
      s' == Goto(s, t, MarkPending(r, |s.pubs|))
            .(fullDirty := s.fullDirty + {r.alloc}, pubs := Published(s, t, r))
    case MarkPending(r, k) =>
      && Known(s, r)
      && var i := RouteOf(s, r);
         s' == Goto(SetQueue(s, i, s.queues[i].(fullPending := true)), t, Ticket(k))
    case _ => false
  }

  /** One statement of lupine_queue_dirty_host_range. */
  predicate ProducerStep(s: State, s': State, t: Tid) {
    && t in s.threads
    && match s.threads[t].pc
       case Count(_) | Reserve(_) | Ticket(_) => CountStep(s, s', t)
       case Fill(_, _) | Publish(_, _) => SlotStep(s, s', t)
       case Uncount(_) | MarkFull(_) | MarkPending(_, _) => OverflowStep(s, s', t)
       case _ => false
  }

  // ----- Steps of a flush -----

  function SetPhase(s: State, ph: Phase): State
    requires s.flush.Flush?
  {
    s.(flush := s.flush.(phase := ph))
  }

  /** A thread takes the flush mutex: lupine_prepare_rpc when its own epoch is not
      flushed yet, the others unconditionally. */
  predicate LockStep(s: State, s': State, t: Tid) {
    && t in s.threads && s.flush == NoFlush
    && match s.threads[t].pc
       case Idle =>
         || (s.flushed < s.threads[t].required
             && s' == Goto(s, t, Flushing).(flush := Flush(t, Prepare, 0, 0, Again)))
         || s' == Goto(s, t, Flushing).(flush := Flush(t, Server, 0, 0, LoadEpoch))
       case RetireLock(a) =>
         && a in s.layout
         && s' == Goto(s, t, Flushing).(flush := Flush(t, Retire(a), 0, s.layout[a].route, RouteStart))
       case _ => false
  }

  /** Reads the epoch and the reserved count, then waits for each slot to be ready. */
  predicate ScanStep(s: State, s': State, t: Tid)
    requires t in s.threads && s.flush.Flush?
  {
    var f := s.flush;
    match f.phase
    case Again =>
      s' == SetPhase(s, if s.flushed < s.threads[t].required then LoadEpoch else Unlock(true))
    case LoadEpoch => s' == s.(flush := f.(epoch := s.epoch, route := 0, phase := RouteStart))
    case RouteStart =>
      || s' == SetPhase(s, if f.route < |s.queues| then Scan(s.queues[f.route].next, s.queues[f.route].start)
                           else StoreEpoch)
      // No connection, or the writes of the server cannot be collected.
      || (f.route < |s.queues| && s' == SetPhase(s, Unlock(false)))
    case Scan(reserved, end) =>
      && f.route < |s.queues|
      && (end < reserved ==> end < |s.queues[f.route].ready| && s.queues[f.route].ready[end])
      && s' == SetPhase(s, if end < reserved then Scan(reserved, end + 1) else LoadFull(end))
    case LoadFull(end) =>
      && f.route < |s.queues|
      && s' == SetPhase(s, Take(end, s.queues[f.route].fullPending, s.queues[f.route].start, []))
    case _ => false
  }

  /** Moves the ready ranges out of the queue and compacts it. */
  predicate TakeStep(s: State, s': State)
    requires s.flush.Flush?
  {
    var f := s.flush;
    && f.route < |s.queues|
    && var q := s.queues[f.route];
       match f.phase
       case Take(end, hasFull, cur, held) =>
         if cur < end then
           && cur < |q.ready| && cur < |q.ranges|
           && s' == SetPhase(SetQueue(s, f.route, q.(ready := q.ready[cur := false])),
                             Take(end, hasFull, cur + 1, held + [q.ranges[cur]]))
         else
           s' == SetPhase(s, Compact(end, hasFull, held))
       case Compact(end, hasFull, held) =>
         s' == SetPhase(SetQueue(s, f.route, if q.next == end then q.(next := 0, start := 0) else q.(start := end)),
                        if hasFull then TakeFull(held) else ScanPortable(held, s.registered))
       case _ => false
  }

  /** The whole storage of an allocation, as full_dirty stands for. */
  function Whole(s: State, a: AllocId): Range
    requires a in s.layout
  {
    Range(a, s.layout[a].base, s.layout[a].base + s.layout[a].size)
  }

  function OnRoute(s: State, i: nat): set<AllocId> {
    set b | b in s.registered && b in s.layout && s.layout[b].route == i
  }

  /** Takes full_dirty_pending, before the sweep over the registry. */
  predicate TakeFullStep(s: State, s': State)
    requires s.flush.Flush? && s.flush.phase.TakeFull?
  {
    var i, held := s.flush.route, s.flush.phase.held;
    && i < |s.queues|
    && s' == if s.queues[i].fullPending
             then SetPhase(SetQueue(s, i, s.queues[i].(fullPending := false)), ScanFull(held, OnRoute(s, i)))
             else SetPhase(s, ScanPortable(held, s.registered))
  }

  /** The full_dirty sweep, one registered allocation at a time in any order. */
  predicate SweepStep(s: State, s': State, a: AllocId)
    requires s.flush.Flush? && s.flush.phase.ScanFull?
  {
    var held, todo := s.flush.phase.held, s.flush.phase.todo;
    if todo == {} then
      s' == SetPhase(s, ScanPortable(held, s.registered))
    else
      && a in todo && a in s.layout
      && s' == if a in s.registered && a !in s.retiring && a in s.fullDirty
               then SetPhase(AddPending(s, a, 1), ScanFull(held + [Whole(s, a)], todo - {a}))
                    .(fullDirty := s.fullDirty - {a})
               else SetPhase(s, ScanFull(held, todo - {a}))
  }

  /** The registration's contents go over whole: it has a backing on the route and no
      store to it is observed there. */
  predicate Unobserved(l: Layout, i: nat) { i in l.mapped && !(l.route == i && l.tracked) }

  /** The second sweep, which passes over registrations not yet exposed to the device. */
  predicate PortableStep(s: State, s': State, a: AllocId)
    requires s.flush.Flush? && s.flush.phase.ScanPortable?
  {
    var held, todo := s.flush.phase.held, s.flush.phase.todo;
    if todo == {} then
      s' == SetPhase(s, Send(held))
    else
      && a in todo && a in s.layout
      && (|| s' == SetPhase(s, ScanPortable(held, todo - {a}))
          || (&& a in s.registered && a !in s.retiring && Unobserved(s.layout[a], s.flush.route)
              && s' == SetPhase(AddPending(s, a, 1), ScanPortable(held, todo - {a}))
                       .(portable := s.portable + [Whole(s, a)])))
  }

  function AfterRoute(f: Flush): Flush
    requires f.Flush?
  {
    if f.kind.Retire? then f.(phase := WaitReferences) else f.(route := f.route + 1, phase := RouteStart)
  }

  /** Sends the held ranges and waits for the acknowledgement, which may fail. */
  predicate SendStep(s: State, s': State)
    requires s.flush.Flush?
  {
    match s.flush.phase
    case Send(held) =>
      s' == if held == [] && s.portable == [] then s.(flush := AfterRoute(s.flush))
            else SetPhase(s, Sent(held, s.clock))
    case Sent(held, readAt) =>
      || s' == SetPhase(s, Drop(held, true)).(acks := s.acks + set x | x in held :: Ack(x, readAt))
      || s' == SetPhase(s, Drop(held, false))
    case _ => false
  }

  /** Releases the held ranges one by one: restored to full_dirty on failure. */
  predicate DropStep(s: State, s': State)
    requires s.flush.Flush? && s.flush.phase.Drop?
  {
    var f, held, ok := s.flush, s.flush.phase.held, s.flush.phase.ok;
    if held == [] && s.portable == [] then
      s' == s.(flush := if ok then AfterRoute(f) else f.(phase := Unlock(false)))
    else if held == [] then
      && f.route < |s.queues| && s.portable[0].alloc in s.layout
      && var a := s.portable[0].alloc;
         var s1 := AddPending(s, a, -1).(portable := s.portable[1..]);
         s' == if ok || a in s.retiring || !s.layout[a].tracked then s1
               else SetQueue(s1, f.route, s.queues[f.route].(fullPending := true)).(fullDirty := s.fullDirty + {a})
    else
      && f.route < |s.queues|
      && var s1 := SetPhase(AddPending(s, held[0].alloc, -1), Drop(held[1..], ok));
         s' == if ok || held[0].alloc in s.retiring then s1
               else SetQueue(s1, f.route, s.queues[f.route].(fullPending := true))
                    .(fullDirty := s.fullDirty + {held[0].alloc})
  }

  predicate FinishStep(s: State, s': State, t: Tid)
    requires t in s.threads && s.flush.Flush?
  {
    var f := s.flush;
    match f.phase
    case StoreEpoch =>
      s' == SetPhase(s, if f.kind == Prepare then Again else Unlock(true)).(flushed := f.epoch)
    case WaitReferences =>
      f.kind.Retire? && PendingOf(s, f.kind.a) == 0 && s' == SetPhase(s, Unlock(true))
    case Unlock(ok) =>
      s' == Goto(s, t, if f.kind.Retire? && ok then RetireHandlers(f.kind.a) else Idle).(flush := NoFlush)
    case _ => false
  }

  predicate FlushStep(s: State, s': State, t: Tid, a: AllocId) {
    && t in s.threads && s.threads[t].pc == Flushing && s.flush.Flush? && s.flush.tid == t
    && match s.flush.phase
       case Again | LoadEpoch | RouteStart | Scan(_, _) | LoadFull(_) => ScanStep(s, s', t)
       case Take(_, _, _, _) | Compact(_, _, _) => TakeStep(s, s')
       case TakeFull(_) => TakeFullStep(s, s')
       case ScanFull(_, _) => SweepStep(s, s', a)
       case ScanPortable(_, _) => PortableStep(s, s', a)
       case Send(_) | Sent(_, _) => SendStep(s, s')
       case Drop(_, _) => DropStep(s, s')
       case StoreEpoch | WaitReferences | Unlock(_) => FinishStep(s, s', t)
  }

  // ----- The application and other references -----

  predicate InHandler(pc: Pc) {
    || pc.Count? || pc.Reserve? || pc.Fill? || pc.Publish? || pc.Uncount? || pc.MarkFull?
    || pc.MarkPending? || pc.Ticket?
  }

  predicate BeforeCount(s: State, a: AllocId) {
    exists u :: u in s.threads && s.threads[u].pc.Count? && s.threads[u].pc.r.alloc == a
  }

  /** lupine_collect_host_allocation_writes, one range at a time: a thread that prepares
      a request, or the flusher before it reads the queue of a route. */
  predicate CollectStep(s: State, s': State, t: Tid, r: Range) {
    && t in s.threads && s.collector == None
    && (|| s.threads[t].pc == Idle
        || (s.threads[t].pc == Flushing && s.flush.Flush? && s.flush.tid == t && s.flush.phase == RouteStart))
    && Known(s, r) && s.layout[r.alloc].tracked && r.alloc in s.registered && r.alloc !in s.retiring
    && s' == Goto(s, t, Count(r)).(collector := Some(t))
  }

  /** What the application does while a thread of its is outside the client. */
  predicate CallStep(s: State, s': State, t: Tid, a: AllocId, r: Range) {
    && t in s.threads && s.threads[t].pc == Idle
    && (// A store faults on a page of a live allocation.
        || (Known(s, r) && s.layout[r.alloc].tracked && r.alloc in s.registered && r.alloc !in s.retiring
            && s' == Goto(s, t, Count(r)))
        // A demand fetch or a fallback copy takes a reference.
        || (a in s.registered && a !in s.retiring && s' == Goto(AddPending(s, a, 1), t, Holding(a)))
        // A free starts: the application no longer touches the allocation.
        || (a in s.registered && a !in s.retiring && !BeforeCount(s, a) && s.collector == None
            && s' == Goto(s, t, RetireLock(a)).(retiring := s.retiring + {a})))
  }

  /** Releases a fetch's reference, or finishes a free whose references are gone. */
  predicate ReleaseStep(s: State, s': State, t: Tid) {
    && t in s.threads
    && match s.threads[t].pc
       case Holding(b) => s' == Goto(AddPending(s, b, -1), t, Idle)
       // lupine_drain_fault_handlers
       case RetireHandlers(b) =>
         && (forall u :: u in s.threads && s.collector != Some(u) ==> !InHandler(s.threads[u].pc))
         && s' == Goto(s, t, RetireErase(b))
       case RetireErase(b) => s.collector == None && s' == Goto(s, t, Idle).(registered := s.registered - {b})
       case _ => false
  }

  predicate Move(s: State, s': State, t: Tid, a: AllocId, r: Range) {
    || ProducerStep(s, s', t)
    || LockStep(s, s', t)
    || FlushStep(s, s', t, a)
    || CallStep(s, s', t, a, r)
    || CollectStep(s, s', t, r)
    || ReleaseStep(s, s', t)
  }

  /** Any one step; the clock counts steps. */
  predicate StepBy(s: State, s': State, t: Tid, a: AllocId, r: Range) {
    s'.clock == s.clock + 1 && Move(s, s'.(clock := s.clock), t, a, r)
  }

  ghost predicate Step(s: State, s': State) {
    exists t, a, r :: StepBy(s, s', t, a, r)
  }

  ghost predicate StepAt(run: seq<State>, i: int)
    requires 0 <= i < |run| - 1
  {
    Step(run[i], run[i + 1])
  }

  ghost predicate Run(run: seq<State>) {
    && |run| > 0
    && Init(run[0])
    && forall i :: 0 <= i < |run| - 1 ==> StepAt(run, i)
  }
}
