/** The count of deferred device-to-host copies the server still owes (events.cpp,
    cuda_client_memcpy.cpp). A copy request is published first and counted when
    its call is about to return; responses to any thread deliver owed copies and
    subtract them, saturating at zero. */
module OwedCopies {

  type Copy = nat

  /** `issued` are the copies whose request is out and whose call has not counted
      them, `counted` those whose call has; `owed` are not delivered yet. */
  datatype State = State(counter: nat, issued: set<Copy>, counted: set<Copy>, owed: set<Copy>)

  predicate Init(s: State) { s == State(0, {}, {}, {}) }

  /** What lupine_event_stale_semaphore_add leaves after `n` arrivals. */
  function Subtract(counter: nat, n: nat): nat { if n >= counter then 0 else counter - n }

  function Issue(s: State, c: Copy): State {
    s.(issued := s.issued + {c}, owed := s.owed + {c})
  }

  function Count(s: State, c: Copy): State {
    s.(counter := s.counter + 1, issued := s.issued - {c}, counted := s.counted + {c})
  }

  function Deliver(s: State, cs: set<Copy>): State {
    s.(counter := Subtract(s.counter, |cs|), owed := s.owed - cs)
  }

  predicate IssueStep(s: State, s': State, c: Copy) {
    c !in s.issued && c !in s.counted && c !in s.owed && s' == Issue(s, c)
  }

  /** The call counts its copy and returns. */
  predicate CountStep(s: State, s': State, c: Copy) {
    c in s.issued && s' == Count(s, c)
  }

  /** A response delivers some owed copies. */
  predicate DeliverStep(s: State, s': State, cs: set<Copy>) {
    cs <= s.owed && s' == Deliver(s, cs)
  }

  ghost predicate Step(s: State, s': State) {
    || (exists c :: IssueStep(s, s', c))
    || (exists c :: CountStep(s, s', c))
    || (exists cs :: DeliverStep(s, s', cs))
  }

  ghost predicate StepAt(run: seq<State>, i: int)
    requires 0 <= i < |run| - 1
  {
    Step(run[i], run[i + 1])
  }

  ghost predicate Run(run: seq<State>) {
    && |run| > 0
    && Init(run[0])
    && forall i :: 0 <= i < |run| - 1 ==> StepAt(run, i)
  }

  // ----- The exact slack -----

  /** Owed copies whose calls have returned, and delivered ones whose calls have not. */
  function Missing(s: State): set<Copy> { s.owed * s.counted }

  function Early(s: State): set<Copy> { s.issued - s.owed }

  ghost predicate Inv(s: State) {
    && s.issued !! s.counted
    && s.owed <= s.issued + s.counted
    && |Missing(s)| <= s.counter + |Early(s)|
  }

  lemma CountKeepsInv(s: State, s': State, c: Copy)
    requires Inv(s) && CountStep(s, s', c)
    ensures Inv(s')
  {
    if c in s.owed {
      assert Missing(s') == Missing(s) + {c} && Early(s') == Early(s);
    } else {
      assert Missing(s') == Missing(s) && Early(s') == Early(s) - {c};
    }
  }

  lemma DeliverKeepsInv(s: State, s': State, cs: set<Copy>)
    requires Inv(s) && DeliverStep(s, s', cs)
    ensures Inv(s')
  {
    assert Missing(s') == Missing(s) - cs * s.counted;
    assert Early(s') == Early(s) + cs * s.issued;
    assert cs == cs * s.counted + cs * s.issued;
    assert |cs| == |cs * s.counted| + |cs * s.issued|;
  }

  lemma StepKeepsInv(s: State, s': State)
    requires Inv(s) && Step(s, s')
    ensures Inv(s')
  {
    if c :| IssueStep(s, s', c) {
      assert Missing(s') == Missing(s) && Early(s') == Early(s);
    } else if c :| CountStep(s, s', c) {
      CountKeepsInv(s, s', c);
    } else {
      var cs :| DeliverStep(s, s', cs);
      DeliverKeepsInv(s, s', cs);
    }
  }

  lemma {:induction false} RunKeepsInv(run: seq<State>, i: nat)
    requires Run(run) && i < |run|
    ensures Inv(run[i])
  {
    if i > 0 {
      RunKeepsInv(run, i - 1);
      assert StepAt(run, i - 1);
      StepKeepsInv(run[i - 1], run[i]);
    }
  }

  /** A query may be answered locally when the counter is zero. If no copy has been
      delivered ahead of its call, every copy still owed belongs to a call that has
      not returned. */
  lemma ZeroMeansNoneMissing(run: seq<State>, i: nat)
    requires Run(run) && i < |run| && run[i].counter == 0 && Early(run[i]) == {}
    ensures run[i].owed <= run[i].issued
  {
    RunKeepsInv(run, i);
    assert Missing(run[i]) == {};
  }

  // ----- When a delivery can hide a missing copy -----

  /** After some delivery the counter is zero while a returned call's copy is owed. */
  ghost predicate CanHide(s: State) {
    exists cs :: Hides(s, cs)
  }

  ghost predicate Hides(s: State, cs: set<Copy>) {
    cs <= s.owed && Subtract(s.counter, |cs|) == 0 && Missing(s) - cs != {}
  }

  /** A set has subsets of every smaller size that leave out one chosen element. */
  lemma {:induction false} AllButOne(s: set<Copy>, c: Copy)
    requires c in s
    ensures |s - {c}| == |s| - 1
  {
  }

  /** The counter alone protects the query exactly when it is at least the number
      of all owed copies, counted or not: one copy between publication and count
      is enough to break it where the counter is tight. */
  lemma HidingCondition(s: State)
    requires Inv(s)
    ensures CanHide(s) <==> Missing(s) != {} && s.counter < |s.owed|
  {
    if CanHide(s) {
      var cs :| Hides(s, cs);
      var c :| c in Missing(s) - cs;
      assert cs <= s.owed - {c};
      Smaller(cs, s.owed - {c});
      AllButOne(s.owed, c);
    }
    if Missing(s) != {} && s.counter < |s.owed| {
      var c :| c in Missing(s);
      AllButOne(s.owed, c);
      assert c in Missing(s) - (s.owed - {c});
      assert Hides(s, s.owed - {c});
    }
  }

  /** With an exact counter: only a copy published and not yet counted can do it. */
  lemma TightCounter(s: State)
    requires Inv(s) && Missing(s) != {} && s.counter == |Missing(s)|
    ensures CanHide(s) <==> s.owed * s.issued != {}
  {
    HidingCondition(s);
    assert s.owed == Missing(s) + s.owed * s.issued;
  }

  lemma {:induction false} Smaller(a: set<Copy>, b: set<Copy>)
    requires a <= b
    ensures |a| <= |b|
  {
    assert b == a + (b - a);
  }

  /** The run that shows it: copy 1 is counted, copy 2 is published, and a response
      delivers copy 2 before its call has counted it. The counter is zero although
      copy 1, whose call has returned, is still owed. */
  lemma EarlyDeliveryHidesACopy() returns (run: seq<State>)
    ensures Run(run) && |run| == 5
    ensures run[4].counter == 0 && 1 in run[4].owed && 1 in run[4].counted
  {
    var s0 := State(0, {}, {}, {});
    var s1 := Issue(s0, 1);
    var s2 := Count(s1, 1);
    var s3 := Issue(s2, 2);
    var s4 := Deliver(s3, {2});
    run := [s0, s1, s2, s3, s4];
    assert IssueStep(s0, s1, 1);
    assert CountStep(s1, s2, 1);
    assert IssueStep(s2, s3, 2);
    assert DeliverStep(s3, s4, {2});
    forall i | 0 <= i < |run| - 1
      ensures StepAt(run, i)
    {
    }
  }
}
