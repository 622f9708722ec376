/** Records and queries of any number of threads over the completion table, and the
    server that executes and completes the records (events.cpp, cuda_client.cpp).
    A record request is published first and enters the table afterwards; a query
    carries the stamps it asked about; requests wait on the server for every
    record published before them. */
module EventQueries {
  import opened EventTable

  type Tid = nat

  /** One cuEventRecord call. */
  type Call = nat

  datatype Pc =
    | Idle
    // cuEventRecord: the request is out, the stamp is drawn
    | Published(event: Event, call: Call) | Stamped(event: Event, call: Call, stamp: nat)
    // cuEventQuery: owed copies loaded, table missed, batch collected, request out
    | Loaded(event: Event, owed: bool) | Missed(event: Event, record: nat) | Collected(tokens: seq<Token>)
    | Sent(tokens: seq<Token>, awaited: set<Call>, results: seq<bool>)

  /** `owner` is the event of every published record, `executed` the order in which
      the server took the records of each event, `done` the completed records and
      `returned` the calls whose table entry has been written. */
  datatype State = State(slots: seq<Slot>, recordSeq: nat, nextCall: nat, owner: map<Call, Event>,
                         executed: map<Event, seq<Call>>, done: set<Call>, returned: set<Call>,
                         threads: map<Tid, Pc>)

  predicate Init(s: State) {
    && |s.slots| == SLOTS && (forall i :: 0 <= i < SLOTS ==> s.slots[i] == EMPTY)
    && s.recordSeq == 0 && s.owner == map[] && s.executed == map[] && s.done == {} && s.returned == {}
    && forall t :: t in s.threads ==> s.threads[t] == Idle
  }

  // ----- Steps -----

  function Goto(s: State, t: Tid, pc: Pc): State { s.(threads := s.threads[t := pc]) }

  function OrderOf(s: State, e: Event): seq<Call> {
    if e in s.executed then s.executed[e] else []
  }

  predicate RecordStep(s: State, s': State, t: Tid, e: Event) {
    && t in s.threads
    && match s.threads[t]
       case Idle =>
         && e != NO_EVENT
         && s' == Goto(s, t, Published(e, s.nextCall)).(owner := s.owner[s.nextCall := e], nextCall := s.nextCall + 1)
       case Published(ev, call) =>
         s' == Goto(s, t, Stamped(ev, call, s.recordSeq + 1)).(recordSeq := s.recordSeq + 1)
       case _ => false
  }

  /** lupine_event_invalidate_completion writes the table, and the call returns. */
  ghost predicate ReturnStep(s: State, s': State, t: Tid) {
    && t in s.threads && s.threads[t].Stamped?
    && Recorded(s.slots, s.threads[t].event, s.threads[t].stamp, s'.slots)
    && s' == Goto(s, t, Idle).(slots := s'.slots, returned := s.returned + {s.threads[t].call})
  }

  /** The server takes a published record, or completes one it has taken. */
  predicate ServerStep(s: State, s': State, call: Call) {
    && call in s.owner
    && (|| (call !in OrderOf(s, s.owner[call])
            && s' == s.(executed := s.executed[s.owner[call] := OrderOf(s, s.owner[call]) + [call]]))
        || (call in OrderOf(s, s.owner[call]) && s' == s.(done := s.done + {call})))
  }

  /** The query is answered from the table. */
  predicate AnswersLocally(s: State, t: Tid) {
    && t in s.threads && s.threads[t].Loaded? && !s.threads[t].owed
    && var i := Find(s.slots, s.threads[t].event);
       i < |s.slots| && s.slots[i].complete
  }

  predicate LookStep(s: State, s': State, t: Tid, e: Event, owed: bool, onRoute: set<Event>) {
    && t in s.threads
    && match s.threads[t]
       case Idle => e != NO_EVENT && s' == Goto(s, t, Loaded(e, owed))
       case Loaded(ev, _) =>
         var i := Find(s.slots, ev);
         s' == Goto(s, t, if AnswersLocally(s, t) then Idle
                          else Missed(ev, if i < |s.slots| then s.slots[i].record else 0))
       case Missed(ev, r) =>
         s' == Goto(s, t, Collected([Token(ev, r)] + Pending(s.slots, ev, onRoute, |s.slots|)))
       case Collected(tokens) => s' == Goto(s, t, Sent(tokens, s.owner.Keys, []))
       case _ => false
  }

  /** The server has taken every record the request waits for. */
  predicate Caught(s: State, awaited: set<Call>) {
    forall c :: c in awaited && c in s.owner ==> c in OrderOf(s, s.owner[c])
  }

  /** An event is complete when its last record is, or when it has none. */
  predicate ServerSaysComplete(s: State, e: Event) {
    var order := OrderOf(s, e);
    order == [] || order[|order| - 1] in s.done
  }

  /** One answer of the reply, or the cached completions when all are in. */
  predicate ReplyStep(s: State, s': State, t: Tid) {
    && t in s.threads && s.threads[t].Sent?
    && var Sent(tokens, awaited, results) := s.threads[t];
       if |results| < |tokens| then
         && Caught(s, awaited)
         && s' == Goto(s, t, Sent(tokens, awaited, results + [ServerSaysComplete(s, tokens[|results|].event)]))
       else
         && |results| == |tokens|
         && s' == Goto(s, t, Idle).(slots := CompleteAll(s.slots, tokens, results, |tokens|))
  }

  predicate Querying(pc: Pc) { pc.Loaded? || pc.Missed? || pc.Collected? || pc.Sent? }

  predicate Recording(pc: Pc, e: Event) { (pc.Published? || pc.Stamped?) && pc.event == e }

  /** cuEventDestroy: it excludes queries, and the application records no more. The
      handle may be reused afterwards. */
  predicate DestroyStep(s: State, s': State, e: Event) {
    && e != NO_EVENT
    && (forall t :: t in s.threads ==> !Querying(s.threads[t]) && !Recording(s.threads[t], e))
    && s' == s.(slots := Forget(s.slots, e), executed := s.executed - {e},
                owner := map c | c in s.owner && s.owner[c] != e :: s.owner[c],
                returned := set c | c in s.returned && c in s.owner && s.owner[c] != e)
  }

  ghost predicate Move(s: State, s': State, t: Tid, e: Event, c: Call, owed: bool, onRoute: set<Event>) {
    || RecordStep(s, s', t, e)
    || ReturnStep(s, s', t)
    || ServerStep(s, s', c)
    || LookStep(s, s', t, e, owed, onRoute)
    || ReplyStep(s, s', t)
    || DestroyStep(s, s', e)
  }

  ghost predicate Step(s: State, s': State) {
    exists t, e, c, owed, onRoute :: Move(s, s', t, e, c, owed, onRoute)
  }

  ghost predicate StepAt(run: seq<State>, i: int)
    requires 0 <= i < |run| - 1
  {
    Step(run[i], run[i + 1])
  }

  ghost predicate Run(run: seq<State>) {
    && |run| > 0
    && Init(run[0])
    && forall i :: 0 <= i < |run| - 1 ==> StepAt(run, i)
  }

  // ----- The invariant -----

  predicate ReturnedFor(s: State, c: Call, e: Event) {
    c in s.returned && c in s.owner && s.owner[c] == e
  }

  /** A record of the event is complete, and every record whose call has returned
      was taken by the server no later than that one. */
  ghost predicate Settled(s: State, e: Event) {
    exists k :: 0 <= k < |OrderOf(s, e)| && SettledAt(s, e, k)
  }

  ghost predicate SettledAt(s: State, e: Event, k: nat)
    requires k < |OrderOf(s, e)|
  {
    && OrderOf(s, e)[k] in s.done
    && forall c :: ReturnedFor(s, c, e) ==> c in OrderOf(s, e)[..k + 1]
  }

  ghost predicate HasRecord(s: State, e: Event) {
    exists c :: ReturnedFor(s, c, e)
  }

  ghost predicate SlotOk(s: State, x: Slot) {
    && x.record <= s.recordSeq
    && (if x.event == NO_EVENT then x.record == 0 else HasRecord(s, x.event))
    && (x.complete ==> x.event != NO_EVENT && Settled(s, x.event))
  }

  ghost predicate SlotsOk(s: State) {
    && |s.slots| == SLOTS && Distinct(s.slots)
    && forall i :: 0 <= i < |s.slots| ==> SlotOk(s, s.slots[i])
  }

  predicate TokenOk(s: State, x: Token) {
    x.record <= s.recordSeq
  }

  /** What a token still in the table says about the answers given for it. */
  ghost predicate AnswerOk(s: State, x: Token, awaited: set<Call>, results: seq<bool>, i: nat) {
    x.record != 0 && Matches(s.slots, x) ==>
      && (forall c :: ReturnedFor(s, c, x.event) ==> c in awaited)
      && (i < |results| && results[i] ==> Settled(s, x.event))
  }

  function TokensOf(pc: Pc): seq<Token> {
    match pc
    case Missed(e, r) => [Token(e, r)]
    case Collected(tokens) => tokens
    case Sent(tokens, _, _) => tokens
    case _ => []
  }

  ghost predicate PcOk(s: State, pc: Pc) {
    match pc
    case Published(e, c) => e != NO_EVENT && c in s.owner && s.owner[c] == e && c !in s.returned
    case Stamped(e, c, st) => e != NO_EVENT && c in s.owner && s.owner[c] == e && c !in s.returned && 0 < st <= s.recordSeq
    case Loaded(e, _) => e != NO_EVENT
    case Missed(_, _) => TokensOk(s, TokensOf(pc))
    case Collected(tokens) => TokensOk(s, tokens)
    case Sent(tokens, awaited, results) =>
      && TokensOk(s, tokens) && |results| <= |tokens| && awaited <= s.owner.Keys
      && forall i :: 0 <= i < |tokens| ==> AnswerOk(s, tokens[i], awaited, results, i)
    case Idle => true
  }

  ghost predicate TokensOk(s: State, tokens: seq<Token>) {
    forall i :: 0 <= i < |tokens| ==> TokenOk(s, tokens[i])
  }

  ghost predicate PcsOk(s: State) {
    forall t :: t in s.threads ==> PcOk(s, s.threads[t])
  }

  /** A stamp still to be written is in no slot, no token and no other call. */
  ghost predicate StampFree(s: State, t: Tid, st: nat) {
    && (forall i :: 0 <= i < |s.slots| ==> s.slots[i].record != st)
    && (forall u, i :: u in s.threads && 0 <= i < |TokensOf(s.threads[u])| ==> TokensOf(s.threads[u])[i].record != st)
    && (forall u :: u in s.threads && u != t && s.threads[u].Stamped? ==> s.threads[u].stamp != st)
  }

  ghost predicate StampsOk(s: State) {
    forall t :: t in s.threads && s.threads[t].Stamped? ==> StampFree(s, t, s.threads[t].stamp)
  }

  ghost predicate CallsOk(s: State) {
    && (forall c :: c in s.owner ==> c < s.nextCall)
    && s.returned <= s.owner.Keys
    && (forall t, u :: t in s.threads && u in s.threads && t != u ==> CallOf(s.threads[t]) !! CallOf(s.threads[u]))
    && (forall e :: e in s.executed ==> OrderOk(s, e, s.executed[e]))
  }

  /** The server takes each record of the event once. */
  ghost predicate OrderOk(s: State, e: Event, order: seq<Call>) {
    && (forall k :: 0 <= k < |order| ==> order[k] in s.owner && s.owner[order[k]] == e)
    && (forall j, k :: 0 <= j < k < |order| ==> order[j] != order[k])
  }

  function CallOf(pc: Pc): set<Call> {
    if pc.Published? || pc.Stamped? then {pc.call} else {}
  }

  ghost predicate Inv(s: State) {
    SlotsOk(s) && PcsOk(s) && StampsOk(s) && CallsOk(s)
  }

  // ----- What survives a step -----

  /** Records of `e` may be taken and completed, but none returns. */
  ghost predicate SameReturns(s: State, s': State, e: Event) {
    && OrderOf(s, e) <= OrderOf(s', e) && s.done <= s'.done
    && forall c :: ReturnedFor(s', c, e) <==> ReturnedFor(s, c, e)
  }

  lemma SettledStays(s: State, s': State, e: Event)
    requires SameReturns(s, s', e)
    ensures Settled(s, e) ==> Settled(s', e)
    ensures HasRecord(s, e) ==> HasRecord(s', e)
  {
    if Settled(s, e) {
      var k :| 0 <= k < |OrderOf(s, e)| && SettledAt(s, e, k);
      assert OrderOf(s', e)[..k + 1] == OrderOf(s, e)[..k + 1];
      assert SettledAt(s', e, k);
    }
    if HasRecord(s, e) {
      var c :| ReturnedFor(s, c, e);
      assert ReturnedFor(s', c, e);
    }
  }

  lemma SlotStays(s: State, s': State, x: Slot)
    requires SlotOk(s, x) && s.recordSeq <= s'.recordSeq && SameReturns(s, s', x.event)
    ensures SlotOk(s', x)
  {
    SettledStays(s, s', x.event);
  }

  lemma AnswerStays(s: State, s': State, x: Token, awaited: set<Call>, results: seq<bool>, i: nat)
    requires AnswerOk(s, x, awaited, results, i) && SameReturns(s, s', x.event)
    requires Matches(s'.slots, x) ==> Matches(s.slots, x)
    ensures AnswerOk(s', x, awaited, results, i)
  {
    SettledStays(s, s', x.event);
  }

  /** A thread that stands still while no call returns and no slot gains a token. */
  lemma PcStays(s: State, s': State, pc: Pc)
    requires PcOk(s, pc) && s.recordSeq <= s'.recordSeq
    requires forall e :: SameReturns(s, s', e)
    requires forall c :: c in s.owner ==> c in s'.owner && s'.owner[c] == s.owner[c]
    requires s'.returned == s.returned
    requires forall i :: 0 <= i < |TokensOf(pc)| && Matches(s'.slots, TokensOf(pc)[i]) ==> Matches(s.slots, TokensOf(pc)[i])
    ensures PcOk(s', pc)
  {
    if pc.Sent? {
      forall i | 0 <= i < |pc.tokens|
        ensures AnswerOk(s', pc.tokens[i], pc.awaited, pc.results, i)
      {
        assert TokensOf(pc)[i] == pc.tokens[i];
        AnswerStays(s, s', pc.tokens[i], pc.awaited, pc.results, i);
      }
    }
  }

  // ----- Publishing and stamping a record -----

  lemma RecordKeepsReturns(s: State, s': State, t: Tid, e: Event, f: Event)
    requires CallsOk(s) && RecordStep(s, s', t, e)
    ensures SameReturns(s, s', f)
  {
    assert s.nextCall !in s.returned;
  }

  lemma RecordKeepsPcs(s: State, s': State, t: Tid, e: Event)
    requires Inv(s) && RecordStep(s, s', t, e)
    ensures PcsOk(s')
  {
    assert PcOk(s, s.threads[t]);
    forall f
      ensures SameReturns(s, s', f)
    {
      RecordKeepsReturns(s, s', t, e, f);
    }
    forall u | u in s'.threads && u != t
      ensures PcOk(s', s'.threads[u])
    {
      PcStays(s, s', s.threads[u]);
    }
  }

  lemma RecordKeepsCalls(s: State, s': State, t: Tid, e: Event)
    requires PcsOk(s) && CallsOk(s) && RecordStep(s, s', t, e)
    ensures CallsOk(s')
  {
    forall u | u in s.threads
      ensures forall c :: c in CallOf(s.threads[u]) ==> c < s.nextCall
    {
      assert PcOk(s, s.threads[u]);
    }
    forall u, v | u in s'.threads && v in s'.threads && u != v
      ensures CallOf(s'.threads[u]) !! CallOf(s'.threads[v])
    {
      assert CallOf(s.threads[u]) !! CallOf(s.threads[v]);
    }
    forall f | f in s'.executed
      ensures OrderOk(s', f, s'.executed[f])
    {
      assert OrderOk(s, f, s.executed[f]);
    }
  }

  lemma RecordKeepsInv(s: State, s': State, t: Tid, e: Event)
    requires Inv(s) && RecordStep(s, s', t, e)
    ensures Inv(s')
  {
    forall i | 0 <= i < |s'.slots|
      ensures SlotOk(s', s'.slots[i])
    {
      RecordKeepsReturns(s, s', t, e, s.slots[i].event);
      SlotStays(s, s', s.slots[i]);
    }
    RecordKeepsPcs(s, s', t, e);
    RecordKeepsStamps(s, s', t, e);
    RecordKeepsCalls(s, s', t, e);
  }

  lemma RecordKeepsStamps(s: State, s': State, t: Tid, e: Event)
    requires SlotsOk(s) && PcsOk(s) && StampsOk(s) && RecordStep(s, s', t, e)
    ensures StampsOk(s')
  {
    forall u | u in s'.threads && s'.threads[u].Stamped?
      ensures StampFree(s', u, s'.threads[u].stamp)
    {
      assert u != t ==> StampFree(s, u, s.threads[u].stamp);
      forall v | v in s.threads
        ensures PcOk(s, s.threads[v])
        ensures forall i :: 0 <= i < |TokensOf(s.threads[v])| ==> TokenOk(s, TokensOf(s.threads[v])[i])
      {
      }
      forall i | 0 <= i < |s.slots|
        ensures SlotOk(s, s.slots[i])
      {
      }
    }
  }

  // ----- Returning from a record -----

  /** Where the table was not rewritten nothing about another event changes. */
  lemma OtherEvent(s: State, s': State, t: Tid, f: Event)
    requires ReturnStep(s, s', t) && CallsOk(s) && PcOk(s, s.threads[t]) && f != s.threads[t].event
    ensures SameReturns(s, s', f)
  {
  }

  lemma ReturnKeepsSlots(s: State, s': State, t: Tid)
    requires Inv(s) && ReturnStep(s, s', t)
    ensures SlotsOk(s')
  {
    var e, st := s.threads[t].event, s.threads[t].stamp;
    assert PcOk(s, s.threads[t]);
    RecordKeepsDistinct(s.slots, e, st, s'.slots);
    var v :| 0 <= v < |s.slots| && RecordedAt(s.slots, e, st, s'.slots, v);
    assert ReturnedFor(s', s.threads[t].call, e);
    forall i | 0 <= i < |s'.slots|
      ensures SlotOk(s', s'.slots[i])
    {
      if i != v {
        assert SlotOk(s, s.slots[i]) && s.slots[i].event != e;
        OtherEvent(s, s', t, s.slots[i].event);
        SlotStays(s, s', s.slots[i]);
      }
    }
  }

  /** A token that matches after the table was rewritten is not about that event. */
  lemma ReturnUnmatches(s: State, s': State, t: Tid, x: Token)
    requires Inv(s) && ReturnStep(s, s', t) && Matches(s'.slots, x)
    requires x.record != s.threads[t].stamp
    ensures Matches(s.slots, x) && x.event != s.threads[t].event
  {
    var e, st := s.threads[t].event, s.threads[t].stamp;
    var v :| 0 <= v < |s.slots| && RecordedAt(s.slots, e, st, s'.slots, v);
    var i :| 0 <= i < |s'.slots| && Carries(s'.slots[i], x);
    assert i != v && Carries(s.slots[i], x);
    assert PcOk(s, s.threads[t]);
  }

  lemma ReturnKeepsPc(s: State, s': State, t: Tid, u: Tid)
    requires Inv(s) && ReturnStep(s, s', t) && u in s.threads && u != t
    ensures PcOk(s', s.threads[u])
  {
    var pc := s.threads[u];
    assert PcOk(s, pc) && StampFree(s, t, s.threads[t].stamp) && PcOk(s, s.threads[t]);
    assert CallOf(s.threads[t]) !! CallOf(s.threads[u]);
    if pc.Sent? {
      forall i | 0 <= i < |pc.tokens|
        ensures AnswerOk(s', pc.tokens[i], pc.awaited, pc.results, i)
      {
        assert TokensOf(pc)[i].record != s.threads[t].stamp;
        if Matches(s'.slots, pc.tokens[i]) {
          ReturnUnmatches(s, s', t, pc.tokens[i]);
          OtherEvent(s, s', t, pc.tokens[i].event);
          AnswerStays(s, s', pc.tokens[i], pc.awaited, pc.results, i);
        }
      }
    }
  }

  lemma ReturnKeepsStamps(s: State, s': State, t: Tid)
    requires Inv(s) && ReturnStep(s, s', t)
    ensures StampsOk(s')
  {
    var e, st := s.threads[t].event, s.threads[t].stamp;
    var v :| 0 <= v < |s.slots| && RecordedAt(s.slots, e, st, s'.slots, v);
    forall u | u in s'.threads && s'.threads[u].Stamped?
      ensures StampFree(s', u, s'.threads[u].stamp)
    {
      assert StampFree(s, u, s.threads[u].stamp);
      assert StampFree(s, t, st);
    }
  }

  lemma ReturnKeepsInv(s: State, s': State, t: Tid)
    requires Inv(s) && ReturnStep(s, s', t)
    ensures Inv(s')
  {
    ReturnKeepsSlots(s, s', t);
    ReturnKeepsStamps(s, s', t);
    forall u | u in s'.threads
      ensures PcOk(s', s'.threads[u])
    {
      if u != t { ReturnKeepsPc(s, s', t, u); }
    }
    assert PcOk(s, s.threads[t]);
  }

  // ----- The server -----

  lemma ServerKeepsInv(s: State, s': State, c: Call)
    requires Inv(s) && ServerStep(s, s', c)
    ensures Inv(s')
  {
    forall f
      ensures SameReturns(s, s', f)
    {
    }
    forall i | 0 <= i < |s'.slots|
      ensures SlotOk(s', s'.slots[i])
    {
      SlotStays(s, s', s.slots[i]);
    }
    forall u | u in s'.threads
      ensures PcOk(s', s'.threads[u])
    {
      PcStays(s, s', s.threads[u]);
    }
    forall u | u in s'.threads && s'.threads[u].Stamped?
      ensures StampFree(s', u, s'.threads[u].stamp)
    {
      assert StampFree(s, u, s.threads[u].stamp);
    }
  }

  // ----- Queries -----

  lemma ThreadMoves(s: State, s': State, t: Tid)
    requires Inv(s) && t in s.threads && t in s'.threads && s' == s.(threads := s'.threads)
    requires s'.threads == s.threads[t := s'.threads[t]]
    requires PcOk(s', s'.threads[t]) && !s'.threads[t].Stamped? && CallOf(s'.threads[t]) == {}
    requires forall i :: 0 <= i < |TokensOf(s'.threads[t])| ==> KnownStamp(s, TokensOf(s'.threads[t])[i].record)
    ensures Inv(s')
  {
    forall f
      ensures SameReturns(s, s', f)
    {
    }
    forall i | 0 <= i < |s'.slots|
      ensures SlotOk(s', s'.slots[i])
    {
      SlotStays(s, s', s.slots[i]);
    }
    forall u | u in s'.threads && u != t
      ensures PcOk(s', s'.threads[u])
    {
      PcStays(s, s', s.threads[u]);
    }
    forall u | u in s'.threads && s'.threads[u].Stamped?
      ensures StampFree(s', u, s'.threads[u].stamp)
    {
      assert StampFree(s, u, s.threads[u].stamp) && PcOk(s, s.threads[u]);
    }
  }

  /** Zero, or a stamp that a slot or a token already carries. */
  ghost predicate KnownStamp(s: State, r: nat) {
    || r == 0
    || (exists i :: 0 <= i < |s.slots| && s.slots[i].record == r)
    || (exists u, i :: u in s.threads && 0 <= i < |TokensOf(s.threads[u])| && TokensOf(s.threads[u])[i].record == r)
  }

  lemma LookKeepsInv(s: State, s': State, t: Tid, e: Event, owed: bool, onRoute: set<Event>)
    requires Inv(s) && LookStep(s, s', t, e, owed, onRoute)
    ensures Inv(s')
  {
    var pc, pc' := s.threads[t], s'.threads[t];
    assert PcOk(s, pc);
    forall i | 0 <= i < |TokensOf(pc')|
      ensures KnownStamp(s, TokensOf(pc')[i].record) && TokenOk(s', TokensOf(pc')[i])
    {
      LookToken(s, s', t, e, owed, onRoute, i);
    }
    assert TokensOk(s', TokensOf(pc'));
    ThreadMoves(s, s', t);
  }

  lemma LookToken(s: State, s': State, t: Tid, e: Event, owed: bool, onRoute: set<Event>, i: nat)
    requires Inv(s) && LookStep(s, s', t, e, owed, onRoute) && i < |TokensOf(s'.threads[t])|
    ensures KnownStamp(s, TokensOf(s'.threads[t])[i].record) && TokenOk(s', TokensOf(s'.threads[t])[i])
  {
    var pc := s.threads[t];
    assert PcOk(s, pc);
    if pc.Loaded? {
      var k := Find(s.slots, pc.event);
      assert k < |s.slots| ==> SlotOk(s, s.slots[k]);
    } else if pc.Missed? {
      if i == 0 {
        assert TokensOf(pc)[0].record == pc.record && TokenOk(s, TokensOf(pc)[0]);
      } else {
        PendingMatch(s.slots, pc.event, onRoute, |s.slots|);
        var x := TokensOf(s'.threads[t])[i];
        assert x == Pending(s.slots, pc.event, onRoute, |s.slots|)[i - 1];
        var j :| 0 <= j < |s.slots| && Carries(s.slots[j], x);
        assert SlotOk(s, s.slots[j]) && s.slots[j].record == x.record;
      }
    } else {
      assert TokensOf(pc)[i] == TokensOf(s'.threads[t])[i] && TokenOk(s, TokensOf(pc)[i]);
    }
  }

  /** A true answer for a token still in the table: the event is settled. */
  lemma AnswerSettles(s: State, x: Token, awaited: set<Call>, results: seq<bool>, i: nat)
    requires SlotsOk(s) && AnswerOk(s, x, awaited, results, i) && Caught(s, awaited)
    requires x.record != 0 && Matches(s.slots, x) && ServerSaysComplete(s, x.event)
    ensures Settled(s, x.event)
  {
    var j :| 0 <= j < |s.slots| && Carries(s.slots[j], x);
    assert SlotOk(s, s.slots[j]);
    var c :| ReturnedFor(s, c, x.event);
    var order := OrderOf(s, x.event);
    assert c in order;
    assert order[..|order|] == order;
    assert SettledAt(s, x.event, |order| - 1);
  }

  lemma AnswerKeepsInv(s: State, s': State, t: Tid)
    requires Inv(s) && ReplyStep(s, s', t) && |s.threads[t].results| < |s.threads[t].tokens|
    ensures Inv(s')
  {
    var pc, pc' := s.threads[t], s'.threads[t];
    assert PcOk(s, pc);
    forall i | 0 <= i < |pc.tokens|
      ensures AnswerOk(s', pc'.tokens[i], pc'.awaited, pc'.results, i)
      ensures KnownStamp(s, TokensOf(pc')[i].record)
    {
      assert AnswerOk(s, pc.tokens[i], pc.awaited, pc.results, i);
      assert TokensOf(s.threads[t])[i] == TokensOf(pc')[i];
      if pc.tokens[i].record != 0 && Matches(s.slots, pc.tokens[i]) && i == |pc.results| && pc'.results[i] {
        AnswerSettles(s, pc.tokens[i], pc.awaited, pc.results, i);
      }
      if Settled(s, pc.tokens[i].event) {
        SettledStays(s, s', pc.tokens[i].event);
      }
    }
    ThreadMoves(s, s', t);
  }

  lemma CacheKeepsSlots(s: State, s': State, t: Tid)
    requires Inv(s) && ReplyStep(s, s', t) && |s.threads[t].results| == |s.threads[t].tokens|
    ensures SlotsOk(s')
  {
    var pc := s.threads[t];
    assert PcOk(s, pc);
    CompleteAllKeeps(s.slots, pc.tokens, pc.results, |pc.tokens|);
    forall i | 0 <= i < |s'.slots|
      ensures SlotOk(s', s'.slots[i])
    {
      SlotStays(s, s', s.slots[i]);
      if s'.slots[i].complete && !s.slots[i].complete {
        var k :| 0 <= k < |pc.tokens| && pc.results[k] && pc.tokens[k].record != 0
                 && pc.tokens[k] == Token(s.slots[i].event, s.slots[i].record);
        assert Carries(s.slots[i], pc.tokens[k]);
        assert AnswerOk(s, pc.tokens[k], pc.awaited, pc.results, k);
        SettledStays(s, s', s.slots[i].event);
      }
    }
  }

  lemma CacheUnmatches(s: State, s': State, t: Tid, x: Token)
    requires ReplyStep(s, s', t) && |s.threads[t].results| == |s.threads[t].tokens| && Matches(s'.slots, x)
    ensures Matches(s.slots, x)
  {
    var pc := s.threads[t];
    CompleteAllKeeps(s.slots, pc.tokens, pc.results, |pc.tokens|);
    var i :| 0 <= i < |s'.slots| && Carries(s'.slots[i], x);
    assert Carries(s.slots[i], x);
  }

  lemma CacheKeepsPcs(s: State, s': State, t: Tid)
    requires Inv(s) && ReplyStep(s, s', t) && |s.threads[t].results| == |s.threads[t].tokens|
    ensures PcsOk(s')
  {
    forall u | u in s'.threads && u != t
      ensures PcOk(s', s'.threads[u])
    {
      forall i | 0 <= i < |TokensOf(s.threads[u])| && Matches(s'.slots, TokensOf(s.threads[u])[i])
        ensures Matches(s.slots, TokensOf(s.threads[u])[i])
      {
        CacheUnmatches(s, s', t, TokensOf(s.threads[u])[i]);
      }
      PcStays(s, s', s.threads[u]);
    }
  }

  lemma CacheKeepsStamps(s: State, s': State, t: Tid)
    requires Inv(s) && ReplyStep(s, s', t) && |s.threads[t].results| == |s.threads[t].tokens|
    ensures StampsOk(s')
  {
    CompleteAllKeeps(s.slots, s.threads[t].tokens, s.threads[t].results, |s.threads[t].tokens|);
    forall u | u in s'.threads && s'.threads[u].Stamped?
      ensures StampFree(s', u, s'.threads[u].stamp)
    {
      assert StampFree(s, u, s.threads[u].stamp);
    }
  }

  lemma CacheKeepsInv(s: State, s': State, t: Tid)
    requires Inv(s) && ReplyStep(s, s', t) && |s.threads[t].results| == |s.threads[t].tokens|
    ensures Inv(s')
  {
    CacheKeepsSlots(s, s', t);
    CacheKeepsPcs(s, s', t);
    CacheKeepsStamps(s, s', t);
  }

  // ----- Destroying an event -----

  lemma DestroyKeepsInv(s: State, s': State, e: Event)
    requires Inv(s) && DestroyStep(s, s', e)
    ensures Inv(s')
  {
    ForgetKeepsDistinct(s.slots, e);
    forall i | 0 <= i < |s'.slots|
      ensures SlotOk(s', s'.slots[i])
    {
      if s.slots[i].event != e {
        assert SlotOk(s, s.slots[i]);
        SlotStays(s, s', s.slots[i]);
      }
    }
    forall u | u in s'.threads
      ensures PcOk(s', s'.threads[u])
    {
      assert PcOk(s, s.threads[u]) && !Querying(s.threads[u]) && !Recording(s.threads[u], e);
    }
    forall u | u in s'.threads && s'.threads[u].Stamped?
      ensures StampFree(s', u, s'.threads[u].stamp)
    {
      assert StampFree(s, u, s.threads[u].stamp) && PcOk(s, s.threads[u]);
    }
  }

  // ----- Whole runs -----

  lemma StepKeepsInv(s: State, s': State)
    requires Inv(s) && Step(s, s')
    ensures Inv(s')
  {
    var t, e, c, owed, onRoute :| Move(s, s', t, e, c, owed, onRoute);
    if RecordStep(s, s', t, e) {
      RecordKeepsInv(s, s', t, e);
    } else if ReturnStep(s, s', t) {
      ReturnKeepsInv(s, s', t);
    } else if ServerStep(s, s', c) {
      ServerKeepsInv(s, s', c);
    } else if LookStep(s, s', t, e, owed, onRoute) {
      LookKeepsInv(s, s', t, e, owed, onRoute);
    } else if DestroyStep(s, s', e) {
      DestroyKeepsInv(s, s', e);
    } else if |s.threads[t].results| < |s.threads[t].tokens| {
      AnswerKeepsInv(s, s', t);
    } else {
      CacheKeepsInv(s, s', t);
    }
  }

  lemma {:induction false} RunKeepsInv(run: seq<State>, i: nat)
    requires Run(run) && i < |run|
    ensures Inv(run[i])
  {
    if i > 0 {
      RunKeepsInv(run, i - 1);
      assert StepAt(run, i - 1);
      StepKeepsInv(run[i - 1], run[i]);
    }
  }

  lemma SettledAnswer(s: State, t: Tid)
    requires Inv(s) && AnswersLocally(s, t)
    ensures Settled(s, s.threads[t].event)
  {
    assert SlotOk(s, s.slots[Find(s.slots, s.threads[t].event)]);
  }

  /** Every record call of the event has returned. */
  predicate AllReturned(s: State, e: Event) { forall c :: c in s.owner && s.owner[c] == e ==> c in s.returned }

  /** The event's last record is complete on the server, and none is on its way. */
  predicate LastComplete(s: State, e: Event) {
    && OrderOf(s, e) != [] && ServerSaysComplete(s, e)
    && Caught(s, set c | c in s.owner && s.owner[c] == e)
  }

  lemma CurrentAnswer(s: State, t: Tid)
    requires Inv(s) && AnswersLocally(s, t) && AllReturned(s, s.threads[t].event)
    ensures LastComplete(s, s.threads[t].event)
  {
    SettledAnswer(s, t);
    var e := s.threads[t].event;
    var k :| 0 <= k < |OrderOf(s, e)| && SettledAt(s, e, k);
    var order := OrderOf(s, e);
    var last := order[|order| - 1];
    assert ReturnedFor(s, last, e) && OrderOk(s, e, order);
    assert last in order[..k + 1];
    forall c | c in s.owner && s.owner[c] == e
      ensures c in order
    {
      assert ReturnedFor(s, c, e);
    }
  }

  /** A query answered without a request: some record of the event is complete, and
      no record whose call has returned was taken by the server after it. */
  lemma LocalAnswerIsSettled(run: seq<State>, i: nat, t: Tid)
    requires Run(run) && i < |run| && AnswersLocally(run[i], t)
    ensures Settled(run[i], run[i].threads[t].event)
  {
    RunKeepsInv(run, i);
    SettledAnswer(run[i], t);
  }

  /** So when no other thread is in the middle of recording the event, its current
      record on the server is complete and the server has taken every record. */
  lemma LocalAnswerIsCurrent(run: seq<State>, i: nat, t: Tid)
    requires Run(run) && i < |run| && AnswersLocally(run[i], t) && AllReturned(run[i], run[i].threads[t].event)
    ensures LastComplete(run[i], run[i].threads[t].event)
  {
    RunKeepsInv(run, i);
    CurrentAnswer(run[i], t);
  }
}
