/** The dispatch gate of checkpoint.cpp: CUDA calls are admitted and released
    with atomics alone, a checkpoint drains them under a mutex and a condition
    variable. Every atomic access, lock operation and wait is one step, and any
    number of threads interleave their steps. */
module DispatchGate {
  import opened Options

  type Tid = nat

  /** Where `end` goes when it is done: back to the application, or on to the
      slow path of the `begin` that called it to back off. */
  datatype Return = ToCaller | ToSlowPath

  datatype BeginPc =
    | FastLoad | FastAdd | FastRecheck
    | SlowLock | SlowTest | SlowParked | SlowWoken | SlowAdd | SlowUnlock

  datatype EndPc =
    | EndLoad | EndSwap(seen: nat) | EndCheck | EndLock | EndNotify | EndUnlock

  datatype DrainPc =
    | DrainLock | DrainCount | DrainPublish | TurnTest | TurnParked | TurnWoken | TurnClaim
    | EmptyTest | EmptySleep | EmptyParked | EmptyWoken | DrainUnlock

  datatype ResumePc =
    | ResumeLock | ResumeTest | ResumeClear | ResumePublish | ResumeNotify | ResumeUnlock

  /** The statement a thread is about to execute, or the call it rests after. */
  datatype Pc =
    | Idle | Admitted | Drained
    | Begin(b: BeginPc)
    | End(e: EndPc, back: Return)
    | Drain(d: DrainPc)
    | Resume(r: ResumePc)

  /** The fields of cuda_call_gate, the holder of its mutex, and one history
      variable: `owner`, the drainer that set `draining`. */
  datatype Shared = Shared(active: nat, pending: bool, waiters: nat, draining: bool,
                           holder: Option<Tid>, owner: Option<Tid>)

  datatype Gate = Gate(sh: Shared, pc: map<Tid, Pc>)

  predicate Init(g: Gate) {
    && g.sh == Shared(0, false, 0, false, None, None)
    && forall t :: t in g.pc ==> g.pc[t] == Idle
  }

  // ----- Steps -----

  /** What one statement does: the new shared state, where the thread goes, and
      whether every parked thread is notified. */
  datatype Effect = Effect(sh: Shared, next: Pc, notify: bool)

  function Move(s: Shared, next: Pc): Effect { Effect(s, next, false) }

  function Lock(s: Shared, t: Tid): Shared { s.(holder := Some(t)) }

  function Unlock(s: Shared): Shared { s.(holder := None) }

  predicate Parked(p: Pc) {
    p in {Begin(SlowParked), Drain(TurnParked), Drain(EmptyParked)}
  }

  function Wake(p: Pc): Pc {
    match p
    case Begin(SlowParked) => Begin(SlowWoken)
    case Drain(TurnParked) => Drain(TurnWoken)
    case Drain(EmptyParked) => Drain(EmptyWoken)
    case _ => p
  }

  /** Points where the gate waits for the application to make a call. */
  predicate Resting(p: Pc) {
    p.Idle? || p.Admitted? || p.Drained?
  }

  predicate WantsMutex(p: Pc) {
    match p
    case Begin(b) => b.SlowLock? || b.SlowWoken?
    case End(e, _) => e.EndLock?
    case Drain(d) => d.DrainLock? || d.TurnWoken? || d.EmptyWoken?
    case Resume(r) => r.ResumeLock?
    case _ => false
  }

  /** Whether the thread's next statement can execute. */
  predicate CanRun(s: Shared, p: Pc) {
    !Parked(p) && !Resting(p) && (WantsMutex(p) ==> s.holder == None)
  }

  function ExecuteBegin(s: Shared, t: Tid, b: BeginPc): Effect
    requires b != SlowParked
  {
    match b
    case FastLoad => Move(s, Begin(if s.pending then SlowLock else FastAdd))
    case FastAdd => Move(s.(active := s.active + 1), Begin(FastRecheck))
    case FastRecheck => Move(s, if s.pending then End(EndLoad, ToSlowPath) else Admitted)
    case SlowLock => Move(Lock(s, t), Begin(SlowTest))
    case SlowWoken => Move(Lock(s, t), Begin(SlowTest))
    case SlowTest =>
      if !s.draining && s.waiters == 0 then Move(s, Begin(SlowAdd))
      else Move(Unlock(s), Begin(SlowParked))
    case SlowAdd => Move(s.(active := s.active + 1), Begin(SlowUnlock))
    case SlowUnlock => Move(Unlock(s), Admitted)
  }

  function AfterEnd(back: Return): Pc {
    match back
    case ToCaller => Idle
    case ToSlowPath => Begin(SlowLock)
  }

  function Reload(s: Shared, back: Return): Pc {
    if s.active == 0 then AfterEnd(back) else End(EndSwap(s.active), back)
  }

  function ExecuteEnd(s: Shared, t: Tid, e: EndPc, back: Return): Effect {
    match e
    case EndLoad => Move(s, Reload(s, back))
    case EndSwap(seen) =>
      if s.active == seen && seen > 0 then
        Move(s.(active := seen - 1), if seen == 1 then End(EndCheck, back) else AfterEnd(back))
      else
        Move(s, Reload(s, back))
    case EndCheck => Move(s, if s.pending then End(EndLock, back) else AfterEnd(back))
    case EndLock => Move(Lock(s, t), End(EndNotify, back))
    case EndNotify => Effect(s, End(EndUnlock, back), true)
    case EndUnlock => Move(Unlock(s), AfterEnd(back))
  }

  function ExecuteDrain(s: Shared, t: Tid, d: DrainPc): Effect
    requires d != TurnParked && d != EmptyParked
  {
    match d
    case DrainLock => Move(Lock(s, t), Drain(DrainCount))
    case DrainCount => Move(s.(waiters := s.waiters + 1), Drain(DrainPublish))
    case DrainPublish => Move(s.(pending := true), Drain(TurnTest))
    case TurnTest =>
      if !s.draining then Move(s, Drain(TurnClaim)) else Move(Unlock(s), Drain(TurnParked))
    case TurnWoken => Move(Lock(s, t), Drain(TurnTest))
    case TurnClaim =>
      var left := if s.waiters == 0 then 0 else s.waiters - 1;
      Move(s.(waiters := left, draining := true, owner := Some(t)), Drain(EmptyTest))
    case EmptyTest => Move(s, Drain(if s.active == 0 then DrainUnlock else EmptySleep))
    case EmptySleep => Move(Unlock(s), Drain(EmptyParked))
    case EmptyWoken => Move(Lock(s, t), Drain(EmptyTest))
    case DrainUnlock => Move(Unlock(s), Drained)
  }

  function ExecuteResume(s: Shared, t: Tid, r: ResumePc): Effect {
    match r
    case ResumeLock => Move(Lock(s, t), Resume(ResumeTest))
    case ResumeTest => Move(s, Resume(if s.draining then ResumeClear else ResumeUnlock))
    case ResumeClear => Move(s.(draining := false, owner := None), Resume(ResumePublish))
    case ResumePublish => Move(s.(pending := s.waiters != 0), Resume(ResumeNotify))
    case ResumeNotify => Effect(s, Resume(ResumeUnlock), true)
    case ResumeUnlock => Move(Unlock(s), Idle)
  }

  function Execute(s: Shared, t: Tid, p: Pc): Effect
    requires CanRun(s, p)
  {
    match p
    case Begin(b) => ExecuteBegin(s, t, b)
    case End(e, back) => ExecuteEnd(s, t, e, back)
    case Drain(d) => ExecuteDrain(s, t, d)
    case Resume(r) => ExecuteResume(s, t, r)
  }

  /** The application calls begin or drain when idle, one end per begin and one
      resume after its drain has returned (checkpoint.h). */
  predicate Call(p: Pc, q: Pc) {
    match p
    case Idle => q == Begin(FastLoad) || q == Drain(DrainLock)
    case Admitted => q == End(EndLoad, ToCaller)
    case Drained => q == Resume(ResumeLock)
    case _ => false
  }

  /** compare_exchange_weak may fail and reload, and a wait may end unnotified. */
  predicate Spurious(s: Shared, p: Pc, q: Pc) {
    || (p.End? && p.e.EndSwap? && q == Reload(s, p.back))
    || (Parked(p) && q == Wake(p))
  }

  predicate Local(s: Shared, t: Tid, p: Pc, e: Effect) {
    || (CanRun(s, p) && e == Execute(s, t, p))
    || ((Call(p, e.next) || Spurious(s, p, e.next)) && e.sh == s && !e.notify)
  }

  function Apply(pc: map<Tid, Pc>, t: Tid, e: Effect): map<Tid, Pc> {
    (if e.notify then map u | u in pc :: Wake(pc[u]) else pc)[t := e.next]
  }

  predicate StepBy(g: Gate, g': Gate, t: Tid, e: Effect) {
    && t in g.pc
    && Local(g.sh, t, g.pc[t], e)
    && g' == Gate(e.sh, Apply(g.pc, t, e))
  }

  ghost predicate Step(g: Gate, g': Gate) {
    exists t, e :: StepBy(g, g', t, e)
  }

  ghost predicate Run(run: seq<Gate>) {
    && |run| > 0
    && Init(run[0])
    && forall i :: 0 <= i < |run| - 1 ==> StepAt(run, i)
  }

  ghost predicate StepAt(run: seq<Gate>, i: int)
    requires 0 <= i < |run| - 1
  {
    Step(run[i], run[i + 1])
  }

  // ----- Who counts where -----

  /** The thread's own increment is still in active_calls_. */
  predicate Counts(p: Pc) {
    match p
    case Admitted => true
    case Begin(b) => b.FastRecheck? || b.SlowUnlock?
    case End(e, _) => e.EndLoad? || e.EndSwap?
    case _ => false
  }

  /** The gate has let the call in and it has not been released yet. */
  predicate Inside(p: Pc) {
    match p
    case Admitted => true
    case Begin(b) => b.SlowUnlock?
    case End(e, back) => back == ToCaller && (e.EndLoad? || e.EndSwap?)
    case _ => false
  }

  predicate Waits(p: Pc) {
    p.Drain? && (p.d.DrainPublish? || p.d.TurnTest? || p.d.TurnParked? || p.d.TurnWoken? || p.d.TurnClaim?)
  }

  /** drain has seen a count of zero and resume has not cleared the flag. */
  predicate Quiet(p: Pc) {
    match p
    case Drained => true
    case Drain(d) => d.DrainUnlock?
    case Resume(r) => r.ResumeLock? || r.ResumeTest? || r.ResumeClear?
    case _ => false
  }

  predicate Owns(p: Pc) {
    || Quiet(p)
    || (p.Drain? && (p.d.EmptyTest? || p.d.EmptySleep? || p.d.EmptyParked? || p.d.EmptyWoken?))
  }

  /** From the store of pending_ in drain up to the store in the matching resume. */
  predicate Draining(p: Pc) {
    (Waits(p) && p != Drain(DrainPublish)) || Owns(p)
  }

  predicate HasMutex(p: Pc) {
    match p
    case Begin(b) => b.SlowTest? || b.SlowAdd? || b.SlowUnlock?
    case End(e, _) => e.EndNotify? || e.EndUnlock?
    case Drain(d) =>
      d.DrainCount? || d.DrainPublish? || d.TurnTest? || d.TurnClaim?
      || d.EmptyTest? || d.EmptySleep? || d.DrainUnlock?
    case Resume(r) => !r.ResumeLock?
    case _ => false
  }

  function Counted(pc: map<Tid, Pc>): set<Tid> { set t | t in pc && Counts(pc[t]) }

  function Waiting(pc: map<Tid, Pc>): set<Tid> { set t | t in pc && Waits(pc[t]) }

  function InsideOf(pc: map<Tid, Pc>): set<Tid> { set t | t in pc && Inside(pc[t]) }

  // ----- Invariant -----

  /** What holds of each thread by itself. */
  predicate ThreadOk(s: Shared, t: Tid, p: Pc) {
    && (HasMutex(p) <==> s.holder == Some(t))
    && (Owns(p) <==> s.owner == Some(t))
    && (Draining(p) ==> s.pending)
    && (p == Begin(SlowAdd) ==> !s.draining && s.waiters == 0)
    && (p == Drain(TurnClaim) || p == Resume(ResumePublish) ==> !s.draining)
    && (p.End? && p.e.EndSwap? ==> p.e.seen > 0)
    && (Counts(p) ==> s.active > 0)
    && (Waits(p) ==> s.waiters > 0)
  }

  ghost predicate Threads(g: Gate) {
    forall t :: t in g.pc ==> ThreadOk(g.sh, t, g.pc[t])
  }

  ghost predicate Counters(g: Gate) {
    && g.sh.active == |Counted(g.pc)|
    && g.sh.waiters == |Waiting(g.pc)|
  }

  predicate At(g: Gate, t: Option<Tid>, p: Pc) {
    t.Some? && t.value in g.pc && g.pc[t.value] == p
  }

  ghost predicate Flags(g: Gate) {
    && (g.sh.draining <==> g.sh.owner.Some?)
    && (g.sh.holder.Some? ==> g.sh.holder.value in g.pc)
    && (g.sh.owner.Some? ==> g.sh.owner.value in g.pc)
    && (g.sh.pending ==>
          (g.sh.draining || g.sh.waiters > 0 || At(g, g.sh.holder, Resume(ResumePublish))))
  }

  ghost predicate Excluded(g: Gate) {
    forall o, t :: o in g.pc && t in g.pc && Quiet(g.pc[o]) ==>
      !Inside(g.pc[t]) && g.pc[t] != Begin(SlowAdd)
  }

  /** The thread will take the mutex, or has it, and will call notify_all. */
  predicate WillNotify(s: Shared, p: Pc) {
    match p
    case End(e, _) => (e.EndCheck? && s.pending) || e.EndLock? || e.EndNotify?
    case Resume(r) => r.ResumePublish? || r.ResumeNotify?
    case _ => false
  }

  /** The predicate a parked thread waits for. */
  predicate MayProceed(s: Shared, p: Pc) {
    match p
    case Begin(SlowParked) => !s.draining && s.waiters == 0
    case Drain(TurnParked) => !s.draining
    case Drain(EmptyParked) => s.active == 0
    case _ => false
  }

  predicate TurnSignal(g: Gate) {
    At(g, g.sh.holder, Resume(ResumePublish)) || At(g, g.sh.holder, Resume(ResumeNotify))
  }

  predicate Releasing(p: Pc) {
    p.End? && (p.e.EndCheck? || p.e.EndLock? || p.e.EndNotify?)
  }

  ghost predicate EmptySignal(g: Gate) {
    exists u :: u in g.pc && Releasing(g.pc[u])
  }

  predicate Sleeping(p: Pc) {
    p == Drain(EmptySleep) || p == Drain(EmptyParked)
  }

  ghost predicate Wakeups(g: Gate) {
    forall t :: t in g.pc ==>
      && (g.pc[t] == Begin(SlowParked) ==> g.sh.draining || g.sh.waiters > 0 || TurnSignal(g))
      && (g.pc[t] == Drain(TurnParked) ==> g.sh.draining || TurnSignal(g))
      && (Sleeping(g.pc[t]) ==> g.sh.active > 0 || EmptySignal(g))
  }

  ghost predicate Inv(g: Gate) {
    Counters(g) && Threads(g) && Flags(g) && Excluded(g) && Wakeups(g)
  }

  // ----- One statement, one thread -----

  /** What a statement leaves true of its own thread, and its part in the counts. */
  predicate SelfOk(s: Shared, t: Tid, p: Pc, e: Effect) {
    && e.sh.active == s.active - (if Counts(p) then 1 else 0) + (if Counts(e.next) then 1 else 0)
    && e.sh.waiters == s.waiters - (if Waits(p) then 1 else 0) + (if Waits(e.next) then 1 else 0)
    && ThreadOk(e.sh, t, e.next)
    && (e.sh.draining <==> e.sh.owner.Some?)
  }

  /** What other threads can rely on when `t` executes a statement. */
  predicate OthersOk(s: Shared, t: Tid, p: Pc, e: Effect) {
    && (e.sh.holder == s.holder || s.holder == Some(t) || (s.holder == None && e.sh.holder == Some(t)))
    && (s.holder == Some(t) ==> e.sh.holder in {None, Some(t)})
    && (e.sh.owner == s.owner || (s.holder == Some(t) && s.owner in {None, Some(t)} && e.sh.owner in {None, Some(t)}))
    && (s.holder != Some(t) ==> e.sh.draining == s.draining && e.sh.waiters == s.waiters)
    && (s.pending && !e.sh.pending ==> e.sh.waiters == 0 && !s.draining)
    && (e.sh.pending && !e.sh.draining && e.sh.waiters == 0 && e.next != Resume(ResumePublish) ==>
          s.pending && !s.draining && s.waiters == 0 && p != Resume(ResumePublish))
  }

  /** How a statement bears on admission and on wake-ups. */
  predicate SignalsOk(s: Shared, t: Tid, p: Pc, e: Effect) {
    && (Quiet(e.next) && !Quiet(p) ==> s.active == 0 && s.holder == Some(t))
    && (Inside(e.next) ==> Inside(p) || p == Begin(SlowAdd) || !s.pending)
    && (e.next == Begin(SlowAdd) ==> !s.draining)
    && (s.draining && !e.sh.draining ==> e.next == Resume(ResumePublish))
    && (s.waiters > 0 && e.sh.waiters == 0 ==> e.sh.draining)
    && (p == Resume(ResumePublish) ==> e.next == Resume(ResumeNotify))
    && (p == Resume(ResumeNotify) ==> e.notify)
    && (e.next == Begin(SlowParked) ==> e.sh.draining || e.sh.waiters > 0)
    && (e.next == Drain(TurnParked) ==> e.sh.draining)
    && (e.next == Drain(EmptySleep) ==> e.sh.active > 0)
    && (e.next == Drain(EmptyParked) ==> p == Drain(EmptySleep) && e.sh.active == s.active)
    && (s.active > 0 && e.sh.active == 0 ==> Releasing(e.next))
    && (Releasing(p) && s.pending ==> Releasing(e.next) || (e.notify && s.holder == Some(t)))
    && (e.notify ==> s.holder == Some(t))
  }

  predicate StatementOk(s: Shared, t: Tid, p: Pc, e: Effect) {
    SelfOk(s, t, p, e) && OthersOk(s, t, p, e) && SignalsOk(s, t, p, e)
  }

  predicate Ready(s: Shared, t: Tid, p: Pc) {
    ThreadOk(s, t, p) && s.draining == s.owner.Some? && (WantsMutex(p) ==> s.holder == None)
  }

  lemma BeginStatement(s: Shared, t: Tid, b: BeginPc)
    requires b != SlowParked && Ready(s, t, Begin(b))
    ensures StatementOk(s, t, Begin(b), ExecuteBegin(s, t, b))
  {
  }

  lemma EndStatement(s: Shared, t: Tid, e: EndPc, back: Return)
    requires Ready(s, t, End(e, back))
    ensures StatementOk(s, t, End(e, back), ExecuteEnd(s, t, e, back))
  {
  }

  predicate TakesTurn(d: DrainPc) {
    || d.DrainLock? || d.DrainCount? || d.DrainPublish? || d.TurnTest? || d.TurnParked? || d.TurnWoken?
    || d.TurnClaim?
  }

  /** Waiting for its turn, */
  lemma TurnStatement(s: Shared, t: Tid, d: DrainPc)
    requires TakesTurn(d) && d != TurnParked && Ready(s, t, Drain(d))
    ensures StatementOk(s, t, Drain(d), ExecuteDrain(s, t, d))
  {
  }

  /** and, with it, for the calls inside. */
  lemma EmptyStatement(s: Shared, t: Tid, d: DrainPc)
    requires !TakesTurn(d) && d != EmptyParked && Ready(s, t, Drain(d))
    ensures StatementOk(s, t, Drain(d), ExecuteDrain(s, t, d))
  {
  }

  lemma DrainStatement(s: Shared, t: Tid, d: DrainPc)
    requires d != TurnParked && d != EmptyParked && Ready(s, t, Drain(d))
    ensures StatementOk(s, t, Drain(d), ExecuteDrain(s, t, d))
  {
    if TakesTurn(d) { TurnStatement(s, t, d); } else { EmptyStatement(s, t, d); }
  }

  lemma ResumeStatement(s: Shared, t: Tid, r: ResumePc)
    requires Ready(s, t, Resume(r))
    ensures StatementOk(s, t, Resume(r), ExecuteResume(s, t, r))
  {
  }

  lemma CallStatement(s: Shared, t: Tid, p: Pc, q: Pc)
    requires ThreadOk(s, t, p) && s.draining == s.owner.Some?
    requires Call(p, q) || Spurious(s, p, q)
    ensures StatementOk(s, t, p, Move(s, q))
  {
  }

  lemma Statement(s: Shared, t: Tid, p: Pc, e: Effect)
    requires ThreadOk(s, t, p) && s.draining == s.owner.Some? && Local(s, t, p, e)
    ensures StatementOk(s, t, p, e)
  {
    if CanRun(s, p) && e == Execute(s, t, p) {
      match p {
        case Begin(b) => BeginStatement(s, t, b);
        case End(n, back) => EndStatement(s, t, n, back);
        case Drain(d) => DrainStatement(s, t, d);
        case Resume(r) => ResumeStatement(s, t, r);
      }
    } else {
      CallStatement(s, t, p, e.next);
    }
  }

  // ----- One statement, every thread -----

  lemma ApplyCounts(pc: map<Tid, Pc>, t: Tid, e: Effect)
    requires t in pc
    ensures Counted(Apply(pc, t, e)) == Counted(pc) - {t} + (if Counts(e.next) then {t} else {})
    ensures Waiting(Apply(pc, t, e)) == Waiting(pc) - {t} + (if Waits(e.next) then {t} else {})
  {
  }

  lemma KeepsCounters(g: Gate, g': Gate, t: Tid, e: Effect)
    requires Counters(g) && StepBy(g, g', t, e) && SelfOk(g.sh, t, g.pc[t], e)
    ensures Counters(g')
  {
    ApplyCounts(g.pc, t, e);
    assert t in Counted(g.pc) <==> Counts(g.pc[t]);
    assert t in Waiting(g.pc) <==> Waits(g.pc[t]);
  }

  /** A count is positive while any thread is in it. */
  lemma CountsArePositive(g: Gate)
    requires Counters(g)
    ensures forall t :: t in g.pc && Counts(g.pc[t]) ==> g.sh.active > 0
    ensures forall t :: t in g.pc && Waits(g.pc[t]) ==> g.sh.waiters > 0
  {
    forall t | t in g.pc
      ensures Counts(g.pc[t]) ==> g.sh.active > 0
      ensures Waits(g.pc[t]) ==> g.sh.waiters > 0
    {
      if Counts(g.pc[t]) { assert t in Counted(g.pc); }
      if Waits(g.pc[t]) { assert t in Waiting(g.pc); }
    }
  }

  lemma OtherThread(s: Shared, t: Tid, p: Pc, e: Effect, u: Tid, r: Pc)
    requires u != t && ThreadOk(s, u, r) && s.draining == s.owner.Some?
    requires OthersOk(s, t, p, e)
    requires (Counts(r) ==> e.sh.active > 0) && (Waits(r) ==> e.sh.waiters > 0)
    ensures ThreadOk(e.sh, u, r)
  {
  }

  lemma WakeKeeps(s: Shared, u: Tid, r: Pc)
    ensures ThreadOk(s, u, Wake(r)) == ThreadOk(s, u, r)
    ensures Inside(Wake(r)) == Inside(r) && Quiet(Wake(r)) == Quiet(r)
    ensures Counts(Wake(r)) == Counts(r) && Waits(Wake(r)) == Waits(r)
    ensures Releasing(Wake(r)) == Releasing(r)
    ensures Wake(r) == r || Parked(r)
    ensures !Parked(Wake(r))
  {
  }

  lemma KeepsThreads(g: Gate, g': Gate, t: Tid, e: Effect)
    requires Threads(g) && g.sh.draining == g.sh.owner.Some? && StepBy(g, g', t, e)
    requires SelfOk(g.sh, t, g.pc[t], e) && OthersOk(g.sh, t, g.pc[t], e)
    requires Counters(g')
    ensures Threads(g')
  {
    CountsArePositive(g');
    forall u | u in g'.pc && u != t
      ensures ThreadOk(g'.sh, u, g'.pc[u])
    {
      WakeKeeps(g'.sh, u, g.pc[u]);
      OtherThread(g.sh, t, g.pc[t], e, u, g.pc[u]);
    }
  }

  lemma KeepsFlags(g: Gate, g': Gate, t: Tid, e: Effect)
    requires Threads(g) && Flags(g) && StepBy(g, g', t, e)
    requires SelfOk(g.sh, t, g.pc[t], e) && OthersOk(g.sh, t, g.pc[t], e)
    ensures Flags(g')
  {
  }

  lemma KeepsExcluded(g: Gate, g': Gate, t: Tid, e: Effect)
    requires Threads(g) && Flags(g) && Counters(g) && Excluded(g) && StepBy(g, g', t, e)
    requires SignalsOk(g.sh, t, g.pc[t], e)
    ensures Excluded(g')
  {
    CountsArePositive(g);
    forall o, u | o in g'.pc && u in g'.pc && Quiet(g'.pc[o])
      ensures !Inside(g'.pc[u]) && g'.pc[u] != Begin(SlowAdd)
    {
      WakeKeeps(g.sh, o, g.pc[o]);
      WakeKeeps(g.sh, u, g.pc[u]);
      if o == t && !Quiet(g.pc[t]) {
        assert ThreadOk(g.sh, u, g.pc[u]);
      } else if u == t {
        assert ThreadOk(g.sh, o, g.pc[o]);
      }
    }
  }

  lemma KeepsTurnWakeups(g: Gate, g': Gate, t: Tid, e: Effect, u: Tid)
    requires Threads(g) && Flags(g) && Wakeups(g) && StepBy(g, g', t, e) && u in g'.pc
    requires Threads(g')
    requires SelfOk(g.sh, t, g.pc[t], e) && OthersOk(g.sh, t, g.pc[t], e) && SignalsOk(g.sh, t, g.pc[t], e)
    ensures g'.pc[u] == Begin(SlowParked) ==> g'.sh.draining || g'.sh.waiters > 0 || TurnSignal(g')
    ensures g'.pc[u] == Drain(TurnParked) ==> g'.sh.draining || TurnSignal(g')
  {
    WakeKeeps(g.sh, u, g.pc[u]);
    if u != t && Parked(g'.pc[u]) {
      assert !e.notify && g.pc[u] == g'.pc[u];
      if TurnSignal(g) {
        var h := g.sh.holder.value;
        assert ThreadOk(g.sh, t, g.pc[t]);
        if h == t {
          assert ThreadOk(g'.sh, t, g'.pc[t]);
        }
      }
    }
  }

  lemma KeepsEmptyWakeups(g: Gate, g': Gate, t: Tid, e: Effect, u: Tid)
    requires Threads(g) && Wakeups(g) && StepBy(g, g', t, e) && u in g'.pc
    requires SignalsOk(g.sh, t, g.pc[t], e)
    requires Sleeping(g'.pc[u]) && g'.sh.active == 0
    ensures EmptySignal(g')
  {
    WakeKeeps(g.sh, u, g.pc[u]);
    assert ThreadOk(g.sh, u, g.pc[u]) && ThreadOk(g.sh, t, g.pc[t]);
    assert Sleeping(g.pc[u]);
    if g.sh.active > 0 {
      assert Releasing(g'.pc[t]);
    } else {
      var w :| w in g.pc && Releasing(g.pc[w]);
      WakeKeeps(g.sh, w, g.pc[w]);
      assert Releasing(g'.pc[w]);
    }
  }

  lemma KeepsWakeups(g: Gate, g': Gate, t: Tid, e: Effect)
    requires Threads(g) && Flags(g) && Wakeups(g) && StepBy(g, g', t, e)
    requires StatementOk(g.sh, t, g.pc[t], e)
    requires Threads(g')
    ensures Wakeups(g')
  {
    forall u | u in g'.pc
      ensures g'.pc[u] == Begin(SlowParked) ==> g'.sh.draining || g'.sh.waiters > 0 || TurnSignal(g')
      ensures g'.pc[u] == Drain(TurnParked) ==> g'.sh.draining || TurnSignal(g')
      ensures Sleeping(g'.pc[u]) ==> g'.sh.active > 0 || EmptySignal(g')
    {
      KeepsTurnWakeups(g, g', t, e, u);
      if Sleeping(g'.pc[u]) && g'.sh.active == 0 {
        KeepsEmptyWakeups(g, g', t, e, u);
      }
    }
  }

  lemma StepKeepsInv(g: Gate, g': Gate, t: Tid, e: Effect)
    requires Inv(g) && StepBy(g, g', t, e)
    ensures Inv(g')
  {
    Statement(g.sh, t, g.pc[t], e);
    KeepsCounters(g, g', t, e);
    KeepsThreads(g, g', t, e);
    KeepsFlags(g, g', t, e);
    KeepsExcluded(g, g', t, e);
    KeepsWakeups(g, g', t, e);
  }

  // ----- Whole runs -----

  lemma {:induction false} RunKeepsInv(run: seq<Gate>, i: nat)
    requires Run(run) && i < |run|
    ensures Inv(run[i])
  {
    if i == 0 {
      assert Counted(run[0].pc) == {} && Waiting(run[0].pc) == {};
    } else {
      RunKeepsInv(run, i - 1);
      assert StepAt(run, i - 1);
      var t, e :| StepBy(run[i - 1], run[i], t, e);
      StepKeepsInv(run[i - 1], run[i], t, e);
    }
  }

  /** From the moment drain returns until the matching resume clears the flag no
      call is admitted, and no other drainer has the gate. */
  lemma DrainedGateIsExclusive(run: seq<Gate>, i: nat, d: Tid)
    requires Run(run) && i < |run| && d in run[i].pc && Quiet(run[i].pc[d])
    ensures InsideOf(run[i].pc) == {}
    ensures forall u :: u in run[i].pc && Owns(run[i].pc[u]) ==> u == d
    ensures run[i].sh.pending && run[i].sh.draining
  {
    RunKeepsInv(run, i);
    assert ThreadOk(run[i].sh, d, run[i].pc[d]);
  }

  /** While some drain is between its store of pending_ and the store in the
      matching resume, a step can only take calls out. */
  lemma DrainAdmitsNobody(g: Gate, g': Gate, d: Tid)
    requires Inv(g) && Step(g, g')
    requires DrainsAt(g, d)
    ensures InsideOf(g'.pc) <= InsideOf(g.pc)
    ensures g.sh.pending
  {
    var t, e :| StepBy(g, g', t, e);
    Statement(g.sh, t, g.pc[t], e);
    assert ThreadOk(g.sh, d, g.pc[d]) && ThreadOk(g.sh, t, g.pc[t]);
    forall u | u in InsideOf(g'.pc)
      ensures u in InsideOf(g.pc)
    {
      WakeKeeps(g.sh, u, g.pc[u]);
    }
  }

  predicate DrainsAt(g: Gate, d: Tid) {
    d in g.pc && Draining(g.pc[d])
  }

  lemma NextAdmitsNobody(run: seq<Gate>, i: nat, d: Tid)
    requires Run(run) && i + 1 < |run| && DrainsAt(run[i], d)
    ensures InsideOf(run[i + 1].pc) <= InsideOf(run[i].pc)
  {
    RunKeepsInv(run, i);
    assert StepAt(run, i);
    DrainAdmitsNobody(run[i], run[i + 1], d);
  }

  /** The admitted calls never grow through the whole window of a drain. */
  lemma {:induction false} DrainWindow(run: seq<Gate>, i: nat, j: nat, d: Tid)
    requires Run(run) && i <= j < |run|
    requires forall k :: i <= k <= j ==> DrainsAt(run[k], d)
    ensures InsideOf(run[j].pc) <= InsideOf(run[i].pc)
    decreases j
  {
    if i < j {
      DrainWindow(run, i, j - 1, d);
      NextAdmitsNobody(run, j - 1, d);
    }
  }

  /** The atomic count is exact: `end` never meets a zero it did not cause. */
  lemma CountIsExact(run: seq<Gate>, i: nat)
    requires Run(run) && i < |run|
    ensures run[i].sh.active == |Counted(run[i].pc)|
    ensures InsideOf(run[i].pc) <= Counted(run[i].pc)
    ensures forall t :: t in run[i].pc && run[i].pc[t].End? && run[i].pc[t].e.EndLoad? ==> run[i].sh.active > 0
  {
    RunKeepsInv(run, i);
    CountsArePositive(run[i]);
  }

  /** No lost wake-up: a thread that is still parked although it may proceed is
      going to be notified by a thread already on its way to do so. */
  lemma NoLostWakeup(run: seq<Gate>, i: nat, t: Tid)
    requires Run(run) && i < |run| && t in run[i].pc
    requires Parked(run[i].pc[t]) && MayProceed(run[i].sh, run[i].pc[t])
    ensures exists u :: u in run[i].pc && WillNotify(run[i].sh, run[i].pc[u])
  {
    RunKeepsInv(run, i);
    var g := run[i];
    assert ThreadOk(g.sh, t, g.pc[t]);
    if Sleeping(g.pc[t]) {
      var u :| u in g.pc && Releasing(g.pc[u]);
      assert WillNotify(g.sh, g.pc[u]);
    } else {
      assert WillNotify(g.sh, g.pc[g.sh.holder.value]);
    }
  }

  /** The gate never deadlocks: while any call is unfinished, some thread can run
      its next statement unless the application itself holds an admission or a
      finished drain. */
  lemma SomeThreadCanRun(run: seq<Gate>, i: nat, t: Tid)
    requires Run(run) && i < |run| && t in run[i].pc && !Resting(run[i].pc[t])
    requires forall u :: u in run[i].pc ==> run[i].pc[u] != Admitted && run[i].pc[u] != Drained
    ensures exists u :: u in run[i].pc && CanRun(run[i].sh, run[i].pc[u])
  {
    RunKeepsInv(run, i);
    var g := run[i];
    if g.sh.holder.Some? {
      assert ThreadOk(g.sh, g.sh.holder.value, g.pc[g.sh.holder.value]);
      assert CanRun(g.sh, g.pc[g.sh.holder.value]);
    } else if g.sh.draining {
      OwnerIsNotStuck(g);
    } else if Parked(g.pc[t]) {
      WaiterIsNotStuck(g, t);
    } else {
      assert CanRun(g.sh, g.pc[t]);
    }
  }

  lemma WaiterIsNotStuck(g: Gate, t: Tid)
    requires Inv(g) && g.sh.holder == None && !g.sh.draining
    requires t in g.pc && Parked(g.pc[t])
    ensures exists u :: u in g.pc && CanRun(g.sh, g.pc[u])
  {
    assert ThreadOk(g.sh, t, g.pc[t]);
    assert |Waiting(g.pc)| > 0;
    var w :| w in Waiting(g.pc);
    assert CanRun(g.sh, g.pc[w]);
  }

  lemma OwnerIsNotStuck(g: Gate)
    requires Inv(g) && g.sh.holder == None && g.sh.draining
    requires forall u :: u in g.pc ==> g.pc[u] != Admitted && g.pc[u] != Drained
    ensures exists u :: u in g.pc && CanRun(g.sh, g.pc[u])
  {
    var o := g.sh.owner.value;
    assert ThreadOk(g.sh, o, g.pc[o]);
    if !Sleeping(g.pc[o]) {
      assert CanRun(g.sh, g.pc[o]);
    } else if g.sh.active > 0 {
      assert |Counted(g.pc)| > 0;
      var c :| c in Counted(g.pc);
      assert ThreadOk(g.sh, c, g.pc[c]);
      assert CanRun(g.sh, g.pc[c]);
    } else {
      var u :| u in g.pc && Releasing(g.pc[u]);
      assert ThreadOk(g.sh, u, g.pc[u]);
      assert CanRun(g.sh, g.pc[u]);
    }
  }
}
