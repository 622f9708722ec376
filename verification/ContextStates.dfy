/** The cache of primary-context states when several threads use one device
    (cuda_client.cpp). cuDevicePrimaryCtxGetState takes no lock: it misses the cache,
    asks the server, and caches the reply in three steps. A retain, release or reset
    that is forwarded, and every change of the flags, first erases the cached state and
    later reaches the driver. */
module ContextStates {
  import opened Options

  type Tid = nat

  /** What cuDevicePrimaryCtxGetState shows. */
  datatype Shown = Shown(flags: nat, active: bool)

  /** When a call holds lupine_primary_ctx_retain_mutex: retains and releases all the
      time, a reset only once it has erased the cached state, a change of flags never. */
  datatype Mutex = Throughout | AtDriver | Never

  /** A call that changes the state, and what the driver makes of it. */
  datatype Call = Call(effect: Shown -> Shown, mutex: Mutex)

  datatype Pc = Idle | Missed | Asked(reply: Shown) | Erased(call: Call)

  /** `shown` is the driver's. */
  datatype State = State(pc: map<Tid, Pc>, cache: Option<Shown>, shown: Shown)

  ghost predicate Init(s: State) {
    s.cache == None && forall t :: t in s.pc ==> s.pc[t] == Idle
  }

  // ----- Steps -----

  ghost predicate At(s: State, t: Tid, p: Pc) { t in s.pc && s.pc[t] == p }

  function Goes(s: State, t: Tid, p: Pc): State { s.(pc := s.pc[t := p]) }

  ghost predicate Miss(s: State, s': State, t: Tid) { At(s, t, Idle) && s.cache == None && s' == Goes(s, t, Missed) }

  ghost predicate Ask(s: State, s': State, t: Tid) { At(s, t, Missed) && s' == Goes(s, t, Asked(s.shown)) }

  ghost predicate Insert(s: State, s': State, t: Tid) {
    t in s.pc && s.pc[t].Asked? && s' == Goes(s, t, Idle).(cache := Some(s.pc[t].reply))
  }

  predicate Holds(p: Pc) { p.Erased? && p.call.mutex == Throughout }

  predicate MutexFree(s: State) { forall u :: u in s.pc ==> !Holds(s.pc[u]) }

  ghost predicate Erase(s: State, s': State, t: Tid, c: Call) {
    At(s, t, Idle) && (c.mutex == Throughout ==> MutexFree(s)) && s' == Goes(s, t, Erased(c)).(cache := None)
  }

  /** The driver executes the call, or the call fails and changes nothing. */
  ghost predicate Forward(s: State, s': State, t: Tid) {
    && t in s.pc && s.pc[t].Erased?
    && (s.pc[t].call.mutex == AtDriver ==> MutexFree(s))
    && (s' == Goes(s, t, Idle) || s' == Goes(s, t, Idle).(shown := s.pc[t].call.effect(s.shown)))
  }

  /** A step of a call that is under way. */
  ghost predicate Proceed(s: State, s': State, t: Tid) { Ask(s, s', t) || Insert(s, s', t) || Forward(s, s', t) }

  ghost predicate Proceeding(s: State, s': State) { exists t :: Proceed(s, s', t) }

  ghost predicate Step(s: State, s': State) {
    || (exists t :: Miss(s, s', t))
    || (exists t, c :: Erase(s, s', t, c))
    || Proceeding(s, s')
  }

  ghost predicate StepAt(run: seq<State>, i: nat) { i + 1 < |run| && Step(run[i], run[i + 1]) }

  ghost predicate Run(run: seq<State>) {
    run != [] && Init(run[0]) && forall i: nat :: i + 1 < |run| ==> StepAt(run, i)
  }

  // ----- When a cached state is current -----

  /** What is in the cache is what the driver would answer. */
  predicate Current(s: State) { s.cache.Some? ==> s.cache.value == s.shown }

  /** Nothing but the calls under way goes on. */
  ghost predicate ProceedAt(run: seq<State>, i: nat) {
    i + 1 < |run| && Proceeding(run[i], run[i + 1])
  }

  ghost predicate Proceeds(run: seq<State>) { run != [] && forall i: nat :: i + 1 < |run| ==> ProceedAt(run, i) }

  /** However the calls under way go on, the cache stays current. */
  ghost predicate Harmless(s: State) {
    forall run :: Proceeds(run) && run[0] == s ==> Current(run[|run| - 1])
  }

  predicate Queries(p: Pc) { p == Missed || p.Asked? }

  /** The call would change what the driver shows now. */
  predicate Changes(s: State, p: Pc) { p.Erased? && p.call.effect(s.shown) != s.shown }

  /** A query that goes to the server is under way together with a call that is being
      forwarded and changes the state. */
  predicate Overlap(s: State) {
    exists t, u :: t in s.pc && u in s.pc && Changes(s, s.pc[t]) && Queries(s.pc[u])
  }

  /** The cache and all replies are current, and a call that changes the state has
      erased the cache. */
  predicate Right(s: State) {
    && Current(s)
    && (forall t :: t in s.pc && s.pc[t].Asked? ==> s.pc[t].reply == s.shown)
    && (forall t :: t in s.pc && Changes(s, s.pc[t]) ==> s.cache == None)
  }

  lemma ProceedKeepsRight(s: State, s': State, t: Tid)
    requires Right(s) && !Overlap(s) && Proceed(s, s', t)
    ensures Right(s') && !Overlap(s')
  {
    if Insert(s, s', t) {
      assert Queries(s.pc[t]);
    } else if s'.shown != s.shown {
      assert Changes(s, s.pc[t]);
    }
  }

  lemma ApartKeepsRight(s: State, s': State)
    requires Right(s) && !Overlap(s) && Step(s, s')
    ensures Right(s')
  {
    if t :| Proceed(s, s', t) { ProceedKeepsRight(s, s', t); }
  }

  lemma {:induction false} ProceedsRight(run: seq<State>, i: nat)
    requires Proceeds(run) && Right(run[0]) && !Overlap(run[0]) && i < |run|
    ensures Right(run[i]) && !Overlap(run[i])
  {
    if i > 0 {
      ProceedsRight(run, i - 1);
      assert ProceedAt(run, i - 1);
      var s, s' := run[i - 1], run[i];
      var t :| Proceed(s, s', t);
      ProceedKeepsRight(s, s', t);
    }
  }

  // ----- When it is not -----

  ghost predicate OneHolder(s: State) {
    forall t, u :: t in s.pc && u in s.pc && Holds(s.pc[t]) && Holds(s.pc[u]) ==> t == u
  }

  lemma {:induction false} RunsHaveOneHolder(run: seq<State>, i: nat)
    requires Run(run) && i < |run|
    ensures OneHolder(run[i])
  {
    if i > 0 {
      RunsHaveOneHolder(run, i - 1);
      assert StepAt(run, i - 1);
    }
  }

  /** The call of thread t takes the steps to its end. */
  ghost function Inserted(s: State, t: Tid): State
    requires t in s.pc && s.pc[t].Asked?
  {
    Goes(s, t, Idle).(cache := Some(s.pc[t].reply))
  }

  ghost function Forwarded(s: State, t: Tid): State
    requires t in s.pc && s.pc[t].Erased?
  {
    Goes(s, t, Idle).(shown := s.pc[t].call.effect(s.shown))
  }

  lemma OneStep(s: State, s': State, t: Tid)
    requires Proceed(s, s', t) && !Harmless(s')
    ensures !Harmless(s)
  {
    var run :| Proceeds(run) && run[0] == s' && !Current(run[|run| - 1]);
    var longer := [s] + run;
    assert Proceeding(s, s');
    forall i: nat | i + 1 < |longer|
      ensures ProceedAt(longer, i)
    {
      if i > 0 { assert ProceedAt(run, i - 1); }
    }
    assert longer[|longer| - 1] == run[|run| - 1];
  }

  lemma NowWrong(s: State)
    requires !Current(s)
    ensures !Harmless(s)
  {
    assert Proceeds([s]);
  }

  lemma StaleReply(s: State, u: Tid)
    requires u in s.pc && s.pc[u].Asked? && s.pc[u].reply != s.shown
    ensures !Harmless(s)
  {
    NowWrong(Inserted(s, u));
    OneStep(s, Inserted(s, u), u);
  }

  lemma ChangeOfCached(s: State, t: Tid)
    requires t in s.pc && Changes(s, s.pc[t]) && s.cache == Some(s.shown)
    requires s.pc[t].call.mutex == AtDriver ==> MutexFree(s)
    ensures !Harmless(s)
  {
    NowWrong(Forwarded(s, t));
    OneStep(s, Forwarded(s, t), t);
  }

  /** A reset waits for the call that holds the mutex, which may fail. */
  lemma ChangeAfterHolder(s: State, t: Tid)
    requires OneHolder(s) && t in s.pc && Changes(s, s.pc[t]) && s.cache == Some(s.shown)
    ensures !Harmless(s)
  {
    if s.pc[t].call.mutex != AtDriver || MutexFree(s) {
      ChangeOfCached(s, t);
    } else {
      var v :| v in s.pc && Holds(s.pc[v]);
      var s' := Goes(s, v, Idle);
      ChangeOfCached(s', t);
      OneStep(s, s', v);
    }
  }

  lemma OverlapOfAsked(s: State, t: Tid, u: Tid)
    requires OneHolder(s) && t in s.pc && u in s.pc && Changes(s, s.pc[t]) && s.pc[u].Asked?
    ensures !Harmless(s)
  {
    if s.pc[u].reply != s.shown {
      StaleReply(s, u);
    } else {
      ChangeAfterHolder(Inserted(s, u), t);
      OneStep(s, Inserted(s, u), u);
    }
  }

  lemma OverlapHarms(s: State, t: Tid, u: Tid)
    requires OneHolder(s) && t in s.pc && u in s.pc && Changes(s, s.pc[t]) && Queries(s.pc[u])
    ensures !Harmless(s)
  {
    if s.pc[u].Asked? {
      OverlapOfAsked(s, t, u);
    } else {
      var s' := Goes(s, u, Asked(s.shown));
      OverlapOfAsked(s', t, u);
      OneStep(s, s', u);
    }
  }

  /** In any state, the calls under way cannot leave a wrong state in the cache if and
      only if everything is right now and no query overlaps a call that changes the state. */
  lemma HarmlessCondition(s: State)
    requires OneHolder(s)
    ensures Harmless(s) <==> Right(s) && !Overlap(s)
  {
    if Right(s) && !Overlap(s) {
      forall run | Proceeds(run) && run[0] == s
        ensures Current(run[|run| - 1])
      {
        ProceedsRight(run, |run| - 1);
      }
    } else if Overlap(s) {
      var t, u :| t in s.pc && u in s.pc && Changes(s, s.pc[t]) && Queries(s.pc[u]);
      OverlapHarms(s, t, u);
    } else if !Current(s) {
      NowWrong(s);
    } else if u :| u in s.pc && s.pc[u].Asked? && s.pc[u].reply != s.shown {
      StaleReply(s, u);
    } else {
      var t :| t in s.pc && Changes(s, s.pc[t]) && s.cache != None;
      ChangeAfterHolder(s, t);
    }
  }

  /** In a run in which they never overlap, as in any program of one thread, every
      cached state is the current one. */
  lemma {:induction false} ApartIsCurrent(run: seq<State>, i: nat)
    requires Run(run) && i < |run| && forall k: nat :: k < i ==> !Overlap(run[k])
    ensures Right(run[i])
  {
    if i > 0 {
      ApartIsCurrent(run, i - 1);
      assert StepAt(run, i - 1);
      ApartKeepsRight(run[i - 1], run[i]);
    }
  }

  /** So at every point up to now the calls under way were harmless if and only if at
      none of them a query overlapped a call that changes the state. */
  lemma HarmlessRuns(run: seq<State>, i: nat)
    requires Run(run) && i < |run|
    ensures (forall k: nat :: k <= i ==> Harmless(run[k])) <==> (forall k: nat :: k <= i ==> !Overlap(run[k]))
  {
    forall k: nat | k <= i
      ensures Harmless(run[k]) ==> !Overlap(run[k])
    {
      RunsHaveOneHolder(run, k);
      HarmlessCondition(run[k]);
    }
    if forall k: nat :: k <= i ==> !Overlap(run[k]) {
      forall k: nat | k <= i
        ensures Harmless(run[k])
      {
        ApartIsCurrent(run, k);
        RunsHaveOneHolder(run, k);
        HarmlessCondition(run[k]);
      }
    }
  }

  // ----- A query and a retain -----

  const INACTIVE := Shown(0, false)
  const ACTIVE := Shown(0, true)
  const RETAIN := Call((x: Shown) => x.(active := true), Throughout)

  function Both(p: Pc, q: Pc, cache: Option<Shown>, shown: Shown): State {
    State(map[0 := p, 1 := q], cache, shown)
  }

  /** Thread 0 asks, thread 1 retains, and thread 0 caches what it was told. */
  function LateInsert(): seq<State> {
    [ Both(Idle, Idle, None, INACTIVE),
      Both(Missed, Idle, None, INACTIVE),
      Both(Asked(INACTIVE), Idle, None, INACTIVE),
      Both(Asked(INACTIVE), Erased(RETAIN), None, INACTIVE),
      Both(Asked(INACTIVE), Idle, None, ACTIVE),
      Both(Idle, Idle, Some(INACTIVE), ACTIVE) ]
  }

  /** Thread 0 caches its reply between the erasure and the retain of thread 1. */
  function EarlyErase(): seq<State> {
    LateInsert()[..4] + [ Both(Idle, Erased(RETAIN), Some(INACTIVE), INACTIVE), LateInsert()[5] ]
  }

  lemma LateInsertSteps(i: nat)
    requires i < 5
    ensures StepAt(LateInsert(), i)
  {
    var r := LateInsert();
    if i == 0 {
      assert Miss(r[0], r[1], 0);
    } else if i == 1 {
      assert Proceed(r[1], r[2], 0);
    } else if i == 2 {
      assert Erase(r[2], r[3], 1, RETAIN);
    } else if i == 3 {
      assert Proceed(r[3], r[4], 1);
    } else {
      assert Proceed(r[4], r[5], 0);
    }
  }

  lemma EarlyEraseSteps(i: nat)
    requires i < 5
    ensures StepAt(EarlyErase(), i)
  {
    var r := EarlyErase();
    if i < 3 {
      LateInsertSteps(i);
    } else if i == 3 {
      assert Proceed(r[3], r[4], 0);
    } else {
      assert Proceed(r[4], r[5], 1);
    }
  }

  /** Two runs after which every thread is idle and the cached state is wrong. */
  lemma OverlapCachesWrongState()
    ensures Run(LateInsert()) && Run(EarlyErase())
    ensures LateInsert()[5] == EarlyErase()[5] == Both(Idle, Idle, Some(INACTIVE), ACTIVE)
  {
    forall i: nat | i < 5
      ensures StepAt(LateInsert(), i) && StepAt(EarlyErase(), i)
    {
      LateInsertSteps(i);
      EarlyEraseSteps(i);
    }
  }
}
