/** Queries and owed copies together (events.cpp): a query loads the counter of owed
    copies first and looks into the table afterwards, while copy calls, deliveries and
    records of other threads go on. */
module EventAnswers {
  import Copies = OwedCopies
  import Queries = EventQueries

  type Tid = Queries.Tid

  /** What was so when a thread loaded the counter: which copies belonged to returned
      calls, and whether none had been delivered ahead of its call. */
  datatype Load = Load(returned: set<Copies.Copy>, none: bool)

  datatype State = State(queries: Queries.State, copies: Copies.State, loads: map<Tid, Load>)

  predicate Init(s: State) { Queries.Init(s.queries) && Copies.Init(s.copies) }

  function Loading(c: Copies.State): Load { Load(c.counted, Copies.Early(c) == {}) }

  /** A query begins with the load. */
  ghost predicate LoadStep(s: State, s': State, t: Tid, e: Queries.EventTable.Event) {
    && t in s.queries.threads && s.queries.threads[t] == Queries.Idle
    && Queries.LookStep(s.queries, s'.queries, t, e, s.copies.counter != 0, {})
    && s'.copies == s.copies && s'.loads == s.loads[t := Loading(s.copies)]
  }

  /** Nobody loads the counter. */
  ghost predicate NoLoad(q: Queries.State, q': Queries.State) {
    forall t :: t in q'.threads && q'.threads[t].Loaded? ==> t in q.threads && q.threads[t] == q'.threads[t]
  }

  ghost predicate QueryStep(s: State, s': State) {
    && Queries.Step(s.queries, s'.queries) && NoLoad(s.queries, s'.queries)
    && s'.copies == s.copies && s'.loads == s.loads
  }

  ghost predicate CopyStep(s: State, s': State) {
    Copies.Step(s.copies, s'.copies) && s'.queries == s.queries && s'.loads == s.loads
  }

  ghost predicate Step(s: State, s': State) {
    || (exists t, e :: LoadStep(s, s', t, e))
    || QueryStep(s, s')
    || CopyStep(s, s')
  }

  ghost predicate StepAt(run: seq<State>, i: nat) { i + 1 < |run| && Step(run[i], run[i + 1]) }

  ghost predicate Run(run: seq<State>) {
    run != [] && Init(run[0]) && forall i: nat :: i + 1 < |run| ==> StepAt(run, i)
  }

  // ----- What a load that found zero goes on to mean -----

  predicate Trusts(pc: Queries.Pc) { pc.Loaded? && !pc.owed }

  /** The copies of calls that had returned at the load have all been delivered. */
  predicate LoadOk(c: Copies.State, l: Load) {
    l.returned <= c.counted && (l.none ==> c.owed * l.returned == {})
  }

  ghost predicate LoadsOk(s: State) {
    forall t :: t in s.queries.threads && Trusts(s.queries.threads[t]) ==> t in s.loads && LoadOk(s.copies, s.loads[t])
  }

  ghost predicate Inv(s: State) { Queries.Inv(s.queries) && Copies.Inv(s.copies) && LoadsOk(s) }

  lemma ZeroLoad(c: Copies.State)
    requires Copies.Inv(c) && c.counter == 0
    ensures LoadOk(c, Loading(c))
  {
    if Copies.Early(c) == {} { assert Copies.Missing(c) == {}; }
  }

  lemma LoadKeeps(s: State, s': State, t: Tid, e: Queries.EventTable.Event)
    requires LoadsOk(s) && Copies.Inv(s.copies) && LoadStep(s, s', t, e)
    ensures LoadsOk(s')
  {
    if s.copies.counter == 0 { ZeroLoad(s.copies); }
  }

  /** Copies that come, are counted or are delivered later do not matter. */
  lemma CopiesKeep(c: Copies.State, c': Copies.State, l: Load)
    requires Copies.Step(c, c') && LoadOk(c, l)
    ensures LoadOk(c', l)
  {
    if x :| Copies.IssueStep(c, c', x) {
    } else if x :| Copies.CountStep(c, c', x) {
    } else {
      var xs :| Copies.DeliverStep(c, c', xs);
    }
  }

  lemma StepKeeps(s: State, s': State)
    requires Inv(s) && Step(s, s')
    ensures Inv(s')
  {
    if t, e :| LoadStep(s, s', t, e) {
      assert Queries.Move(s.queries, s'.queries, t, e, 0, s.copies.counter != 0, {});
      Queries.StepKeepsInv(s.queries, s'.queries);
      LoadKeeps(s, s', t, e);
    } else if QueryStep(s, s') {
      Queries.StepKeepsInv(s.queries, s'.queries);
    } else {
      Copies.StepKeepsInv(s.copies, s'.copies);
      forall t | t in s'.queries.threads && Trusts(s'.queries.threads[t])
        ensures t in s'.loads && LoadOk(s'.copies, s'.loads[t])
      {
        CopiesKeep(s.copies, s'.copies, s.loads[t]);
      }
    }
  }

  lemma {:induction false} RunKeepsInv(run: seq<State>, i: nat)
    requires Run(run) && i < |run|
    ensures Inv(run[i])
  {
    if i == 0 {
      Queries.RunKeepsInv([run[0].queries], 0);
      Copies.RunKeepsInv([run[0].copies], 0);
    } else {
      RunKeepsInv(run, i - 1);
      assert StepAt(run, i - 1);
      StepKeeps(run[i - 1], run[i]);
    }
  }

  /** A query that is answered without a request, when no copy had been delivered ahead
      of its call at the load and no record of the event is under way: the event's last
      record is complete on the server, and every copy whose call had returned when the
      query began has arrived. */
  lemma LocalAnswerIsWhole(run: seq<State>, i: nat, t: Tid)
    requires Run(run) && i < |run| && Queries.AnswersLocally(run[i].queries, t)
    requires Queries.AllReturned(run[i].queries, run[i].queries.threads[t].event)
    ensures Queries.LastComplete(run[i].queries, run[i].queries.threads[t].event)
    ensures t in run[i].loads && (run[i].loads[t].none ==> run[i].copies.owed * run[i].loads[t].returned == {})
  {
    RunKeepsInv(run, i);
    Queries.CurrentAnswer(run[i].queries, t);
  }
}
