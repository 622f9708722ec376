/** The client's view of stream captures: the count that answers "no capture" without
    a round trip, the cache that answers "this capture" until one ends, and the gate
    that lets a checkpoint wait for all captures (cuda_client.cpp, checkpoint.cpp).
    Each atomic access, each critical section of the gate and each call the server
    executes is one step; any number of threads interleave. */
module StreamCaptures {

  type Tid = nat
  type Stream = nat
  type Id = nat

  datatype Entry = Entry(epoch: nat, id: Id)

  datatype Pc =
    | Idle
    // cuStreamBeginCapture: let in by the gate, counted, answered; refused begins
    // still have to be taken off the count.
    | LetIn | Counted(stream: Stream) | Answered(started: bool) | Refused
    // cuStreamEndCapture: the capture is over on the server; off the gate; epoch
    // advanced; cache cleared.
    | Ended(id: Id) | Released(id: Id) | Advanced | Cleared
    // A query: the epoch loaded; the reply to be cached; an entry found in the cache.
    | Loaded(stream: Stream, epoch: nat) | Replied(stream: Stream, entry: Entry) | Found(stream: Stream, entry: Entry)
    // A checkpoint: waiting for its turn, waiting for the captures, and granted.
    | Queued | Claimed | Quiet

  datatype Gate = Gate(admitted: nat, active: nat, waiters: nat, checkpoint: bool)

  /** `joined` and `live` are the server's: which capture a stream is in, and the
      captures going on. `next` and `finished` record history: the number of captures
      ever begun, and the epoch the end of each has advanced to. */
  datatype Captures = Captures(epoch: nat, joined: map<Stream, Id>, live: set<Id>, next: Id, finished: map<Id, nat>)

  /** `skipped` counts the releases that found nothing to release. */
  datatype State = State(
    pc: map<Tid, Pc>,
    gate: Gate,
    count: int,
    cache: map<Stream, Entry>,
    caps: Captures,
    skipped: nat)

  ghost predicate Init(s: State) {
    && (forall t :: t in s.pc ==> s.pc[t] == Idle)
    && s.gate == Gate(0, 0, 0, false) && s.count == 0 && s.cache == map[] && s.skipped == 0
    && s.caps == Captures(0, map[], {}, 0, map[])
  }

  // ----- Steps -----

  predicate At(s: State, t: Tid, p: Pc) { t in s.pc && s.pc[t] == p }

  function Goes(s: State, t: Tid, p: Pc): State { s.(pc := s.pc[t := p]) }

  /** capture_gate::begin. */
  ghost predicate Enter(s: State, s': State, t: Tid) {
    && At(s, t, Idle) && !s.gate.checkpoint && s.gate.waiters == 0
    && s' == Goes(s, t, LetIn).(gate := s.gate.(admitted := s.gate.admitted + 1))
  }

  ghost predicate Count(s: State, s': State, t: Tid, stream: Stream) {
    At(s, t, LetIn) && s' == Goes(s, t, Counted(stream)).(count := s.count + 1)
  }

  function Begun(c: Captures, stream: Stream): Captures {
    c.(live := c.live + {c.next}, joined := c.joined[stream := c.next], next := c.next + 1)
  }

  /** The server begins a capture, or refuses. */
  ghost predicate ServeBegin(s: State, s': State, t: Tid, stream: Stream) {
    && At(s, t, Counted(stream)) && stream !in s.caps.joined
    && s' == Goes(s, t, Answered(true)).(caps := Begun(s.caps, stream))
  }

  ghost predicate ServeRefusal(s: State, s': State, t: Tid, stream: Stream) {
    At(s, t, Counted(stream)) && s' == Goes(s, t, Answered(false))
  }

  /** capture_gate::begin_complete. */
  ghost predicate Complete(s: State, s': State, t: Tid, started: bool) {
    && At(s, t, Answered(started))
    && var g := s.gate;
       s' == Goes(s, t, if started then Idle else Refused)
             .(gate := if g.admitted == 0 then g
                       else g.(admitted := g.admitted - 1, active := g.active + if started then 1 else 0))
  }

  ghost predicate Uncount(s: State, s': State, t: Tid, p: Pc) {
    (p == Refused || p == Cleared) && At(s, t, p) && s' == Goes(s, t, Idle).(count := s.count - 1)
  }

  /** A stream is drawn into a capture by waiting for an event of it. */
  ghost predicate Join(s: State, s': State, stream: Stream, id: Id) {
    id in s.caps.live && stream !in s.caps.joined && s' == s.(caps := s.caps.(joined := s.caps.joined[stream := id]))
  }

  function Over(c: Captures, id: Id): Captures {
    c.(live := c.live - {id}, joined := map stream | stream in c.joined && c.joined[stream] != id :: c.joined[stream])
  }

  /** The server ends the capture, whatever thread asks. */
  ghost predicate ServeEnd(s: State, s': State, t: Tid, id: Id) {
    && At(s, t, Idle) && id in s.caps.live
    && s' == Goes(s, t, Ended(id)).(caps := Over(s.caps, id))
  }

  /** capture_gate::end. */
  ghost predicate Release(s: State, s': State, t: Tid, id: Id) {
    && At(s, t, Ended(id))
    && if s.gate.active == 0 then s' == Goes(s, t, Released(id)).(skipped := s.skipped + 1)
       else s' == Goes(s, t, Released(id)).(gate := s.gate.(active := s.gate.active - 1))
  }

  function Finish(c: Captures, id: Id): Captures {
    c.(epoch := c.epoch + 1, finished := c.finished[id := c.epoch + 1])
  }

  ghost predicate Advance(s: State, s': State, t: Tid, id: Id) {
    && At(s, t, Released(id))
    && s' == Goes(s, t, Advanced).(caps := Finish(s.caps, id))
  }

  ghost predicate Clear(s: State, s': State, t: Tid) {
    At(s, t, Advanced) && s' == Goes(s, t, Cleared).(cache := map[])
  }

  /** cuStreamGetCaptureInfo: load the epoch; ask the server; cache its answer. */
  ghost predicate Load(s: State, s': State, t: Tid, stream: Stream) {
    At(s, t, Idle) && s' == Goes(s, t, Loaded(stream, s.caps.epoch))
  }

  ghost predicate ServeQuery(s: State, s': State, t: Tid, stream: Stream, epoch: nat) {
    && At(s, t, Loaded(stream, epoch))
    && s' == Goes(s, t, if stream in s.caps.joined then Replied(stream, Entry(epoch, s.caps.joined[stream])) else Idle)
  }

  ghost predicate Insert(s: State, s': State, t: Tid, stream: Stream, entry: Entry) {
    At(s, t, Replied(stream, entry)) && s' == Goes(s, t, Idle).(cache := s.cache[stream := entry])
  }

  /** cuStreamIsCapturing: look the stream up, and only then load the epoch. */
  ghost predicate LookUp(s: State, s': State, t: Tid, stream: Stream) {
    At(s, t, Idle) && stream in s.cache && s' == Goes(s, t, Found(stream, s.cache[stream]))
  }

  /** A query that has its answer. */
  ghost predicate Return(s: State, s': State, t: Tid) {
    t in s.pc && (s.pc[t].Found? || s.pc[t].Loaded?) && s' == Goes(s, t, Idle)
  }

  /** capture_gate::wait_for_captures, up to its first wait, up to its second, and to
      its end; and resume_captures. */
  ghost predicate Queue(s: State, s': State, t: Tid) {
    At(s, t, Idle) && s' == Goes(s, t, Queued).(gate := s.gate.(waiters := s.gate.waiters + 1))
  }

  ghost predicate Claim(s: State, s': State, t: Tid) {
    && At(s, t, Queued) && !s.gate.checkpoint && s.gate.waiters > 0
    && s' == Goes(s, t, Claimed).(gate := s.gate.(waiters := s.gate.waiters - 1, checkpoint := true))
  }

  ghost predicate Grant(s: State, s': State, t: Tid) {
    At(s, t, Claimed) && s.gate.admitted == 0 && s.gate.active == 0 && s' == Goes(s, t, Quiet)
  }

  ghost predicate Resume(s: State, s': State, t: Tid) {
    At(s, t, Quiet) && s' == Goes(s, t, Idle).(gate := s.gate.(checkpoint := false))
  }

  ghost predicate BeginStep(s: State, s': State) {
    || (exists t :: Enter(s, s', t))
    || (exists t, stream :: Count(s, s', t, stream))
    || (exists t, stream :: ServeBegin(s, s', t, stream))
    || (exists t, stream :: ServeRefusal(s, s', t, stream))
    || (exists t, started :: Complete(s, s', t, started))
    || (exists t, p :: Uncount(s, s', t, p))
    || (exists stream, id :: Join(s, s', stream, id))
  }

  ghost predicate EndStep(s: State, s': State) {
    || (exists t, id :: ServeEnd(s, s', t, id))
    || (exists t, id :: Release(s, s', t, id))
    || (exists t, id :: Advance(s, s', t, id))
    || (exists t :: Clear(s, s', t))
  }

  ghost predicate QueryStep(s: State, s': State) {
    || (exists t, stream :: Load(s, s', t, stream))
    || (exists t, stream, epoch :: ServeQuery(s, s', t, stream, epoch))
    || (exists t, stream, entry :: Insert(s, s', t, stream, entry))
    || (exists t, stream :: LookUp(s, s', t, stream))
    || (exists t :: Return(s, s', t))
  }

  ghost predicate CheckpointStep(s: State, s': State) {
    || (exists t :: Queue(s, s', t))
    || (exists t :: Claim(s, s', t))
    || (exists t :: Grant(s, s', t))
    || (exists t :: Resume(s, s', t))
  }

  ghost predicate Step(s: State, s': State) {
    BeginStep(s, s') || EndStep(s, s') || QueryStep(s, s') || CheckpointStep(s, s')
  }

  ghost predicate StepAt(run: seq<State>, i: nat) { i + 1 < |run| && Step(run[i], run[i + 1]) }

  ghost predicate Run(run: seq<State>) {
    run != [] && Init(run[0]) && forall i: nat :: i + 1 < |run| ==> StepAt(run, i)
  }

  // ----- Counting threads -----

  ghost function Threads(pc: map<Tid, Pc>, p: Pc -> bool): set<Tid> { set t | t in pc && p(pc[t]) }

  ghost function Number(pc: map<Tid, Pc>, p: Pc -> bool): nat { |Threads(pc, p)| }

  function One(b: bool): nat { if b then 1 else 0 }

  lemma Recount(pc: map<Tid, Pc>, t: Tid, next: Pc, p: Pc -> bool)
    requires t in pc
    ensures Number(pc[t := next], p) + One(p(pc[t])) == Number(pc, p) + One(p(next))
  {
    var rest := Threads(pc, p) - {t};
    assert Threads(pc, p) == if p(pc[t]) then rest + {t} else rest;
    assert Threads(pc[t := next], p) == if p(next) then rest + {t} else rest;
  }

  /** Let in, and not known to have started; started, and not yet completed. */
  predicate Waits(p: Pc) { p.LetIn? || p.Counted? || p == Answered(false) }

  predicate Starts(p: Pc) { p == Answered(true) }

  predicate Ends(p: Pc) { p.Ended? }

  /** On the count without a capture to show for it. */
  predicate Counts(p: Pc) {
    p.Counted? || p == Answered(false) || p.Refused? || p.Ended? || p.Released? || p.Advanced? || p.Cleared?
  }

  predicate Owns(p: Pc) { p.Claimed? || p.Quiet? }

  // ----- The invariant -----

  /** The gate's books balance, but for what skipped releases left on them. */
  ghost predicate GateOk(pc: map<Tid, Pc>, g: Gate, live: set<Id>, skipped: nat) {
    && g.admitted == Number(pc, Waits) + Number(pc, Starts)
    && g.active + Number(pc, Starts) == |live| + Number(pc, Ends) + skipped
  }

  ghost predicate CountOk(pc: map<Tid, Pc>, count: int, live: set<Id>) {
    count == |live| + Number(pc, Counts)
  }

  ghost predicate CheckpointOk(pc: map<Tid, Pc>, g: Gate) {
    && (forall t :: t in pc && Owns(pc[t]) ==> g.checkpoint)
    && (forall t, u :: t in pc && u in pc && Owns(pc[t]) && Owns(pc[u]) ==> t == u)
    && (forall t :: t in pc && pc[t] == Quiet ==> g.admitted == 0 && g.active == 0)
  }

  /** The thread is between the end of the capture on the server and the epoch. */
  predicate Closes(pc: map<Tid, Pc>, t: Tid, id: Id) { t in pc && (pc[t] == Ended(id) || pc[t] == Released(id)) }

  /** Every capture is live, or one thread is ending it, or it is finished. */
  ghost predicate TracksOk(pc: map<Tid, Pc>, c: Captures) {
    && (forall id :: id in c.live ==> id < c.next && id !in c.finished)
    && (forall id :: id in c.finished ==> id < c.next && c.finished[id] <= c.epoch)
    && (forall t: nat, id: nat :: Closes(pc, t, id) ==> id < c.next && id !in c.live && id !in c.finished)
    && (forall t: nat, u: nat, id: nat :: Closes(pc, t, id) && Closes(pc, u, id) ==> t == u)
    && (forall id: nat :: id < c.next && id !in c.live && id !in c.finished ==> exists t: nat :: Closes(pc, t, id))
    && (forall stream :: stream in c.joined ==> c.joined[stream] in c.live)
  }

  /** An entry is no younger than the epoch, was taken before its capture finished,
      and the stream is in that capture for as long as the capture lives. */
  predicate EntryOk(c: Captures, stream: Stream, e: Entry) {
    && e.epoch <= c.epoch && e.id < c.next
    && (e.id in c.finished ==> e.epoch < c.finished[e.id])
    && (e.id in c.live ==> stream in c.joined && c.joined[stream] == e.id)
  }

  /** What a thread has in hand. */
  predicate HandOk(c: Captures, p: Pc) {
    match p
    case Loaded(_, epoch) => epoch <= c.epoch
    case Replied(stream, e) => EntryOk(c, stream, e)
    case Found(stream, e) => EntryOk(c, stream, e)
    case _ => true
  }

  ghost predicate EntriesOk(pc: map<Tid, Pc>, cache: map<Stream, Entry>, c: Captures) {
    && (forall stream :: stream in cache ==> EntryOk(c, stream, cache[stream]))
    && (forall t :: t in pc ==> HandOk(c, pc[t]))
  }

  ghost predicate Books(s: State) {
    && GateOk(s.pc, s.gate, s.caps.live, s.skipped) && CountOk(s.pc, s.count, s.caps.live)
    && CheckpointOk(s.pc, s.gate)
  }

  ghost predicate Inv(s: State) {
    Books(s) && TracksOk(s.pc, s.caps) && EntriesOk(s.pc, s.cache, s.caps)
  }

  // ----- Every step keeps it: the books -----

  /** What a thread that moves from one point to another takes off the books and puts
      on them; and a thread that comes to own the checkpoint finds it free. */
  ghost predicate Moves(s: State, s': State, t: Tid) {
    && t in s.pc && t in s'.pc && s'.pc == s.pc[t := s'.pc[t]]
    && var p, q, g, g' := s.pc[t], s'.pc[t], s.gate, s'.gate;
       && g'.admitted + One(Waits(p)) + One(Starts(p)) == g.admitted + One(Waits(q)) + One(Starts(q))
       && g'.active + One(Starts(q)) + |s.caps.live| + One(Ends(p)) + s.skipped
          == g.active + One(Starts(p)) + |s'.caps.live| + One(Ends(q)) + s'.skipped
       && s'.count + |s.caps.live| + One(Counts(p)) == s.count + |s'.caps.live| + One(Counts(q))
       && (Owns(q) ==> (Owns(p) || !g.checkpoint) && g'.checkpoint)
       && (g.checkpoint ==> g'.checkpoint || Owns(p))
       && (g'.admitted > g.admitted ==> !g.checkpoint)
       && (g'.active > g.active ==> g.admitted > 0)
       && (q == Quiet ==> g'.admitted == 0 && g'.active == 0)
  }

  lemma KeepBooks(s: State, s': State, t: Tid)
    requires Books(s) && Moves(s, s', t)
    ensures Books(s')
  {
    Recount(s.pc, t, s'.pc[t], Waits);
    Recount(s.pc, t, s'.pc[t], Starts);
    Recount(s.pc, t, s'.pc[t], Ends);
    Recount(s.pc, t, s'.pc[t], Counts);
  }

  lemma AdmittedIsCounted(s: State, t: Tid)
    requires GateOk(s.pc, s.gate, s.caps.live, s.skipped) && t in s.pc && s.pc[t].Answered?
    ensures s.gate.admitted > 0
  {
    assert t in Threads(s.pc, Waits) || t in Threads(s.pc, Starts);
  }

  // ----- Every step keeps it: captures and entries -----

  /** A thread moves without beginning or finishing the end of a capture. */
  lemma MoveTracks(pc: map<Tid, Pc>, t: Tid, next: Pc, c: Captures)
    requires TracksOk(pc, c) && t in pc
    requires forall id: nat :: Closes(pc, t, id) <==> next == Ended(id) || next == Released(id)
    ensures TracksOk(pc[t := next], c)
  {
    var pc' := pc[t := next];
    forall u: nat, id: nat
      ensures Closes(pc', u, id) <==> Closes(pc, u, id)
    {
    }
    forall id: nat | id < c.next && id !in c.live && id !in c.finished
      ensures exists u: nat :: Closes(pc', u, id)
    {
      var u: nat :| Closes(pc, u, id);
      assert Closes(pc', u, id);
    }
  }

  /** A thread moves to where it has nothing wrong in hand. */
  lemma MoveEntries(pc: map<Tid, Pc>, t: Tid, next: Pc, cache: map<Stream, Entry>, c: Captures)
    requires EntriesOk(pc, cache, c) && t in pc && HandOk(c, next)
    ensures EntriesOk(pc[t := next], cache, c)
  {
  }

  /** The captures move on and no entry is wrong for it. */
  lemma GrowEntries(pc: map<Tid, Pc>, cache: map<Stream, Entry>, c: Captures, c': Captures)
    requires EntriesOk(pc, cache, c) && c.epoch <= c'.epoch
    requires forall stream, e :: EntryOk(c, stream, e) ==> EntryOk(c', stream, e)
    ensures EntriesOk(pc, cache, c')
  {
    forall t | t in pc
      ensures HandOk(c', pc[t])
    {
      assert HandOk(c, pc[t]);
    }
  }

  /** A step that leaves the captures alone. */
  lemma PlainStep(s: State, s': State, t: Tid)
    requires Inv(s) && Moves(s, s', t) && s'.caps == s.caps && s'.cache == s.cache
    requires HandOk(s.caps, s'.pc[t])
    requires forall id: nat :: Closes(s.pc, t, id) <==> s'.pc[t] == Ended(id) || s'.pc[t] == Released(id)
    ensures Inv(s')
  {
    KeepBooks(s, s', t);
    MoveTracks(s.pc, t, s'.pc[t], s.caps);
    MoveEntries(s.pc, t, s'.pc[t], s.cache, s.caps);
  }

  lemma EnterKeeps(s: State, s': State, t: Tid)
    requires Inv(s) && Enter(s, s', t)
    ensures Inv(s')
  {
    PlainStep(s, s', t);
  }

  lemma CountKeeps(s: State, s': State, t: Tid, stream: Stream)
    requires Inv(s) && Count(s, s', t, stream)
    ensures Inv(s')
  {
    PlainStep(s, s', t);
  }

  lemma ServeRefusalKeeps(s: State, s': State, t: Tid, stream: Stream)
    requires Inv(s) && ServeRefusal(s, s', t, stream)
    ensures Inv(s')
  {
    PlainStep(s, s', t);
  }

  lemma CompleteKeeps(s: State, s': State, t: Tid, started: bool)
    requires Inv(s) && Complete(s, s', t, started)
    ensures Inv(s')
  {
    AdmittedIsCounted(s, t);
    PlainStep(s, s', t);
  }

  lemma UncountKeeps(s: State, s': State, t: Tid, p: Pc)
    requires Inv(s) && Uncount(s, s', t, p)
    ensures Inv(s')
  {
    PlainStep(s, s', t);
  }

  lemma ClearKeeps(s: State, s': State, t: Tid)
    requires Inv(s) && Clear(s, s', t)
    ensures Inv(s')
  {
    var middle := Goes(s, t, Cleared);
    PlainStep(s, middle, t);
    assert EntriesOk(s'.pc, map[], s'.caps);
    assert Books(s');
  }

  lemma ReturnKeeps(s: State, s': State, t: Tid)
    requires Inv(s) && Return(s, s', t)
    ensures Inv(s')
  {
    PlainStep(s, s', t);
  }

  lemma QueueKeeps(s: State, s': State, t: Tid)
    requires Inv(s) && Queue(s, s', t)
    ensures Inv(s')
  {
    PlainStep(s, s', t);
  }

  lemma ClaimKeeps(s: State, s': State, t: Tid)
    requires Inv(s) && Claim(s, s', t)
    ensures Inv(s')
  {
    PlainStep(s, s', t);
  }

  lemma GrantKeeps(s: State, s': State, t: Tid)
    requires Inv(s) && Grant(s, s', t)
    ensures Inv(s')
  {
    assert Owns(s.pc[t]);
    PlainStep(s, s', t);
  }

  lemma ResumeKeeps(s: State, s': State, t: Tid)
    requires Inv(s) && Resume(s, s', t)
    ensures Inv(s')
  {
    PlainStep(s, s', t);
  }

  lemma LoadKeeps(s: State, s': State, t: Tid, stream: Stream)
    requires Inv(s) && Load(s, s', t, stream)
    ensures Inv(s')
  {
    PlainStep(s, s', t);
  }

  lemma ServeQueryKeeps(s: State, s': State, t: Tid, stream: Stream, epoch: nat)
    requires Inv(s) && ServeQuery(s, s', t, stream, epoch)
    ensures Inv(s')
  {
    assert HandOk(s.caps, s.pc[t]);
    if stream in s.caps.joined {
      assert s.caps.joined[stream] in s.caps.live;
      assert EntryOk(s.caps, stream, Entry(epoch, s.caps.joined[stream]));
    }
    PlainStep(s, s', t);
  }

  lemma LookUpKeeps(s: State, s': State, t: Tid, stream: Stream)
    requires Inv(s) && LookUp(s, s', t, stream)
    ensures Inv(s')
  {
    PlainStep(s, s', t);
  }

  lemma InsertKeeps(s: State, s': State, t: Tid, stream: Stream, entry: Entry)
    requires Inv(s) && Insert(s, s', t, stream, entry)
    ensures Inv(s')
  {
    var middle := Goes(s, t, Idle);
    assert HandOk(s.caps, s.pc[t]);
    PlainStep(s, middle, t);
    assert EntriesOk(s'.pc, s.cache[stream := entry], s'.caps);
    assert Books(s');
  }

  lemma ServeBeginKeeps(s: State, s': State, t: Tid, stream: Stream)
    requires Inv(s) && ServeBegin(s, s', t, stream)
    ensures Inv(s')
  {
    BeginTracks(s.pc, s.caps, stream);
    GrowEntries(s.pc, s.cache, s.caps, s'.caps);
    MoveTracks(s.pc, t, Answered(true), s'.caps);
    MoveEntries(s.pc, t, Answered(true), s.cache, s'.caps);
    assert s.caps.next !in s.caps.live;
    KeepBooks(s, s', t);
  }

  lemma BeginTracks(pc: map<Tid, Pc>, c: Captures, stream: Stream)
    requires TracksOk(pc, c) && stream !in c.joined
    ensures TracksOk(pc, Begun(c, stream))
    ensures forall o, e :: EntryOk(c, o, e) ==> EntryOk(Begun(c, stream), o, e)
  {
  }

  lemma JoinKeeps(s: State, s': State, stream: Stream, id: Id)
    requires Inv(s) && Join(s, s', stream, id)
    ensures Inv(s')
  {
    GrowEntries(s.pc, s.cache, s.caps, s'.caps);
    assert TracksOk(s'.pc, s'.caps);
    assert Books(s');
  }

  lemma ServeEndKeeps(s: State, s': State, t: Tid, id: Id)
    requires Inv(s) && ServeEnd(s, s', t, id)
    ensures Inv(s')
  {
    EndTracks(s.pc, s.caps, t, id);
    GrowEntries(s.pc, s.cache, s.caps, s'.caps);
    MoveEntries(s.pc, t, Ended(id), s.cache, s'.caps);
    KeepBooks(s, s', t);
  }

  lemma EndTracks(pc: map<Tid, Pc>, c: Captures, t: Tid, id: Id)
    requires TracksOk(pc, c) && t in pc && pc[t] == Idle && id in c.live
    ensures TracksOk(pc[t := Ended(id)], Over(c, id))
    ensures forall o, e :: EntryOk(c, o, e) ==> EntryOk(Over(c, id), o, e)
  {
    var pc' := pc[t := Ended(id)];
    forall u: nat, other: nat
      ensures Closes(pc', u, other) <==> Closes(pc, u, other) || (u == t && other == id)
    {
    }
    assert Closes(pc', t, id);
    forall other: nat | other < c.next && other !in c.live && other !in c.finished
      ensures exists u: nat :: Closes(pc', u, other)
    {
      var u: nat :| Closes(pc, u, other);
      assert Closes(pc', u, other);
    }
  }

  lemma ReleaseKeeps(s: State, s': State, t: Tid, id: Id)
    requires Inv(s) && Release(s, s', t, id)
    ensures Inv(s')
  {
    PlainStep(s, s', t);
  }

  lemma AdvanceKeeps(s: State, s': State, t: Tid, id: Id)
    requires Inv(s) && Advance(s, s', t, id)
    ensures Inv(s')
  {
    FinishTracks(s.pc, s.caps, t, id);
    GrowEntries(s.pc, s.cache, s.caps, s'.caps);
    MoveEntries(s.pc, t, Advanced, s.cache, s'.caps);
    KeepBooks(s, s', t);
  }

  lemma FinishTracks(pc: map<Tid, Pc>, c: Captures, t: Tid, id: Id)
    requires TracksOk(pc, c) && t in pc && pc[t] == Released(id)
    ensures TracksOk(pc[t := Advanced], Finish(c, id))
    ensures forall o, e :: EntryOk(c, o, e) ==> EntryOk(Finish(c, id), o, e)
  {
    var pc' := pc[t := Advanced];
    assert Closes(pc, t, id);
    forall u: nat, other: nat
      ensures Closes(pc', u, other) <==> Closes(pc, u, other) && u != t
    {
    }
  }

  lemma BeginKeeps(s: State, s': State)
    requires Inv(s) && BeginStep(s, s')
    ensures Inv(s')
  {
    if t :| Enter(s, s', t) {
      EnterKeeps(s, s', t);
    } else if t, stream :| Count(s, s', t, stream) {
      CountKeeps(s, s', t, stream);
    } else if t, stream :| ServeBegin(s, s', t, stream) {
      ServeBeginKeeps(s, s', t, stream);
    } else if t, stream :| ServeRefusal(s, s', t, stream) {
      ServeRefusalKeeps(s, s', t, stream);
    } else if t, started :| Complete(s, s', t, started) {
      CompleteKeeps(s, s', t, started);
    } else if t, p :| Uncount(s, s', t, p) {
      UncountKeeps(s, s', t, p);
    } else {
      var stream, id :| Join(s, s', stream, id);
      JoinKeeps(s, s', stream, id);
    }
  }

  lemma EndKeeps(s: State, s': State)
    requires Inv(s) && EndStep(s, s')
    ensures Inv(s')
  {
    if t, id :| ServeEnd(s, s', t, id) {
      ServeEndKeeps(s, s', t, id);
    } else if t, id :| Release(s, s', t, id) {
      ReleaseKeeps(s, s', t, id);
    } else if t, id :| Advance(s, s', t, id) {
      AdvanceKeeps(s, s', t, id);
    } else {
      var t :| Clear(s, s', t);
      ClearKeeps(s, s', t);
    }
  }

  lemma QueryKeeps(s: State, s': State)
    requires Inv(s) && QueryStep(s, s')
    ensures Inv(s')
  {
    if t, stream :| Load(s, s', t, stream) {
      LoadKeeps(s, s', t, stream);
    } else if t, stream, epoch :| ServeQuery(s, s', t, stream, epoch) {
      ServeQueryKeeps(s, s', t, stream, epoch);
    } else if t, stream, entry :| Insert(s, s', t, stream, entry) {
      InsertKeeps(s, s', t, stream, entry);
    } else if t, stream :| LookUp(s, s', t, stream) {
      LookUpKeeps(s, s', t, stream);
    } else {
      var t :| Return(s, s', t);
      ReturnKeeps(s, s', t);
    }
  }

  lemma CheckpointKeeps(s: State, s': State)
    requires Inv(s) && CheckpointStep(s, s')
    ensures Inv(s')
  {
    if t :| Queue(s, s', t) {
      QueueKeeps(s, s', t);
    } else if t :| Claim(s, s', t) {
      ClaimKeeps(s, s', t);
    } else if t :| Grant(s, s', t) {
      GrantKeeps(s, s', t);
    } else {
      var t :| Resume(s, s', t);
      ResumeKeeps(s, s', t);
    }
  }

  lemma InitHolds(s: State)
    requires Init(s)
    ensures Inv(s)
  {
    assert Threads(s.pc, Waits) == {} && Threads(s.pc, Starts) == {} && Threads(s.pc, Ends) == {} && Threads(s.pc, Counts) == {};
  }

  lemma StepKeeps(s: State, s': State)
    requires Inv(s) && Step(s, s')
    ensures Inv(s')
  {
    if BeginStep(s, s') {
      BeginKeeps(s, s');
    } else if EndStep(s, s') {
      EndKeeps(s, s');
    } else if QueryStep(s, s') {
      QueryKeeps(s, s');
    } else {
      CheckpointKeeps(s, s');
    }
  }

  lemma NextKeeps(run: seq<State>, i: nat)
    requires Run(run) && i + 1 < |run| && Inv(run[i])
    ensures Inv(run[i + 1])
  {
    assert StepAt(run, i);
    StepKeeps(run[i], run[i + 1]);
  }

  lemma {:induction false} RunKeepsInv(run: seq<State>, i: nat)
    requires Run(run) && i < |run|
    ensures Inv(run[i])
  {
    if i == 0 {
      InitHolds(run[0]);
    } else {
      RunKeepsInv(run, i - 1);
      NextKeeps(run, i - 1);
    }
  }

  // ----- What runs guarantee -----

  lemma NoneJoined(pc: map<Tid, Pc>, c: Captures)
    requires TracksOk(pc, c) && |c.live| == 0
    ensures c.live == {} && c.joined == map[]
  {
    assert c.live == {};
    assert forall stream :: stream !in c.joined;
  }

  /** The captures going on never exceed the count, so a count of zero means that no
      stream is capturing, and that is what the query answers. */
  lemma ZeroMeansNone(run: seq<State>, i: nat)
    requires Run(run) && i < |run|
    ensures |run[i].caps.live| <= run[i].count
    ensures run[i].count == 0 ==> run[i].caps.live == {} && run[i].caps.joined == map[]
  {
    RunKeepsInv(run, i);
    if run[i].count == 0 { NoneJoined(run[i].pc, run[i].caps); }
  }

  /** Its end has not got as far as the epoch: it is going on, with the stream in it,
      or one thread is ending it. */
  ghost predicate Open(s: State, stream: Stream, id: Id) {
    || (id in s.caps.live && stream in s.caps.joined && s.caps.joined[stream] == id)
    || exists t: nat :: Closes(s.pc, t, id)
  }

  /** cuStreamIsCapturing: an entry whose epoch is the one loaded after it was found
      describes a capture that is open at that load. */
  lemma FoundIsOpen(run: seq<State>, i: nat, t: Tid, stream: Stream, entry: Entry)
    requires Run(run) && i < |run| && At(run[i], t, Found(stream, entry)) && entry.epoch == run[i].caps.epoch
    ensures entry.id !in run[i].caps.finished && Open(run[i], stream, entry.id)
  {
    RunKeepsInv(run, i);
  }

  ghost predicate FinishedAt(s: State, id: Id, epoch: nat) { id in s.caps.finished && s.caps.finished[id] == epoch }

  lemma StepKeepsFinished(s: State, s': State, id: Id, epoch: nat)
    requires Inv(s) && Step(s, s') && FinishedAt(s, id, epoch)
    ensures FinishedAt(s', id, epoch)
  {
    if t, other :| Advance(s, s', t, other) {
      assert Closes(s.pc, t, other);
    } else if t, stream :| ServeBegin(s, s', t, stream) {
    } else if t, other :| ServeEnd(s, s', t, other) {
    } else if stream, other :| Join(s, s', stream, other) {
    } else {
      assert s'.caps == s.caps;
    }
  }

  lemma NextKeepsFinished(run: seq<State>, i: nat, id: Id, epoch: nat)
    requires Run(run) && i + 1 < |run| && Inv(run[i]) && FinishedAt(run[i], id, epoch)
    ensures FinishedAt(run[i + 1], id, epoch)
  {
    assert StepAt(run, i);
    StepKeepsFinished(run[i], run[i + 1], id, epoch);
  }

  lemma {:induction false} FinishedStays(run: seq<State>, i: nat, j: nat, id: Id, epoch: nat)
    requires Run(run) && i <= j < |run| && FinishedAt(run[i], id, epoch)
    ensures FinishedAt(run[j], id, epoch)
    decreases j
  {
    if i < j {
      FinishedStays(run, i, j - 1, id, epoch);
      RunKeepsInv(run, j - 1);
      NextKeepsFinished(run, j - 1, id, epoch);
    }
  }

  /** cuStreamGetCaptureInfo loads the epoch first: the entry it then answers from
      describes a capture that had not finished when the epoch was loaded. */
  lemma LoadedIsOpen(run: seq<State>, i: nat, j: nat, t: Tid, stream: Stream)
    requires Run(run) && i <= j < |run| && At(run[j], t, Loaded(stream, run[i].caps.epoch))
    requires stream in run[j].cache && run[j].cache[stream].epoch == run[i].caps.epoch
    ensures run[j].cache[stream].id !in run[i].caps.finished
  {
    RunKeepsInv(run, i);
    RunKeepsInv(run, j);
    var id := run[j].cache[stream].id;
    if id in run[i].caps.finished { FinishedStays(run, i, j, id, run[i].caps.finished[id]); }
  }

  /** From the grant of a checkpoint until it resumes, no capture is going on, none is
      being begun, and no other checkpoint is granted. */
  lemma QuietIsQuiet(run: seq<State>, i: nat, t: Tid)
    requires Run(run) && i < |run| && At(run[i], t, Quiet)
    ensures run[i].caps.live == {} && run[i].caps.joined == map[]
    ensures forall u :: u in run[i].pc ==> !Waits(run[i].pc[u]) && !Starts(run[i].pc[u])
    ensures forall u :: At(run[i], u, Quiet) ==> u == t
  {
    RunKeepsInv(run, i);
    var s := run[i];
    NoneJoined(s.pc, s.caps);
    forall u | u in s.pc
      ensures !Waits(s.pc[u]) && !Starts(s.pc[u])
    {
      assert u !in Threads(s.pc, Waits) && u !in Threads(s.pc, Starts);
    }
    forall u | At(s, u, Quiet)
      ensures u == t
    {
      assert Owns(s.pc[u]) && Owns(s.pc[t]);
    }
  }

  /** When every call has returned and no capture is left, what a checkpoint waits for
      holds if and only if no release was skipped; */
  lemma GrantedAtRest(run: seq<State>, i: nat)
    requires Run(run) && i < |run| && run[i].caps.live == {}
    requires forall t :: t in run[i].pc ==> run[i].pc[t] == Idle || run[i].pc[t] == Queued || Owns(run[i].pc[t])
    ensures run[i].gate.admitted == 0 && run[i].gate.active == run[i].skipped
    ensures run[i].gate.admitted == 0 && run[i].gate.active == 0 <==> run[i].skipped == 0
  {
    RunKeepsInv(run, i);
    var s := run[i];
    assert Threads(s.pc, Waits) == {} && Threads(s.pc, Starts) == {} && Threads(s.pc, Ends) == {};
  }

  /** and a release is skipped exactly when every capture that is going on, or ended and
      not released, is one whose begin has not returned: as many begins have started and
      not returned as there are such captures and earlier skipped releases. */
  lemma SkippedDuringBegin(run: seq<State>, i: nat, t: Tid, id: Id)
    requires Run(run) && i + 1 < |run| && Release(run[i], run[i + 1], t, id)
    ensures run[i + 1].skipped > run[i].skipped <==>
            Number(run[i].pc, Starts) == |run[i].caps.live| + Number(run[i].pc, Ends) + run[i].skipped
    ensures run[i + 1].skipped > run[i].skipped ==> exists u :: u in run[i].pc && run[i].pc[u] == Answered(true)
  {
    RunKeepsInv(run, i);
    var s := run[i];
    assert t in Threads(s.pc, Ends);
    if run[i + 1].skipped > s.skipped {
      var u :| u in Threads(s.pc, Starts);
    }
  }

  ghost predicate Orderly(s: State) { Number(s.pc, Starts) == 0 || Number(s.pc, Ends) == 0 }

  /** So none is skipped in a run whose captures are ended only while every begin has
      returned. */
  lemma {:induction false} OrderlyRunsSkipNone(run: seq<State>, n: nat)
    requires Run(run) && n < |run|
    requires forall i: nat :: i <= n ==> Orderly(run[i])
    ensures run[n].skipped == 0
  {
    if n > 0 {
      OrderlyRunsSkipNone(run, n - 1);
      OrderlyStep(run, n - 1);
    }
  }

  lemma OrderlyStep(run: seq<State>, i: nat)
    requires Run(run) && i + 1 < |run| && run[i].skipped == 0 && Orderly(run[i])
    ensures run[i + 1].skipped == 0
  {
    RunKeepsInv(run, i);
    assert StepAt(run, i);
    var s, s' := run[i], run[i + 1];
    if t, id :| Release(s, s', t, id) {
      assert t in Threads(s.pc, Ends);
    } else {
      assert s'.skipped == s.skipped;
    }
  }

  // ----- A release that is skipped -----

  function Both(p: Pc, q: Pc): map<Tid, Pc> { map[0 := p, 1 := q] }

  /** Thread 1 ends the capture of thread 0 before thread 0 has its answer. */
  function SkipRun(): seq<State> {
    var before := Captures(0, map[], {}, 0, map[]);
    var during := Captures(0, map[7 := 0], {0}, 1, map[]);
    var over := Captures(0, map[], {}, 1, map[]);
    var after := Captures(1, map[], {}, 1, map[0 := 1]);
    [ State(Both(Idle, Idle), Gate(0, 0, 0, false), 0, map[], before, 0),
      State(Both(LetIn, Idle), Gate(1, 0, 0, false), 0, map[], before, 0),
      State(Both(Counted(7), Idle), Gate(1, 0, 0, false), 1, map[], before, 0),
      State(Both(Answered(true), Idle), Gate(1, 0, 0, false), 1, map[], during, 0),
      State(Both(Answered(true), Ended(0)), Gate(1, 0, 0, false), 1, map[], over, 0),
      State(Both(Answered(true), Released(0)), Gate(1, 0, 0, false), 1, map[], over, 1),
      State(Both(Idle, Released(0)), Gate(0, 1, 0, false), 1, map[], over, 1),
      State(Both(Idle, Advanced), Gate(0, 1, 0, false), 1, map[], after, 1),
      State(Both(Idle, Cleared), Gate(0, 1, 0, false), 1, map[], after, 1),
      State(Both(Idle, Idle), Gate(0, 1, 0, false), 0, map[], after, 1) ]
  }

  lemma SkipRunBegins(i: nat)
    requires i < 3
    ensures StepAt(SkipRun(), i)
  {
    var r := SkipRun();
    if i == 0 {
      assert Enter(r[0], r[1], 0);
    } else if i == 1 {
      assert Count(r[1], r[2], 0, 7);
    } else {
      assert ServeBegin(r[2], r[3], 0, 7);
    }
  }

  lemma SkipRunSkips(i: nat)
    requires 3 <= i < 6
    ensures StepAt(SkipRun(), i)
  {
    var r := SkipRun();
    if i == 3 {
      assert ServeEnd(r[3], r[4], 1, 0);
    } else if i == 4 {
      assert Release(r[4], r[5], 1, 0);
    } else {
      assert Complete(r[5], r[6], 0, true);
    }
  }

  lemma SkipRunEnds(i: nat)
    requires 6 <= i < 9
    ensures StepAt(SkipRun(), i)
  {
    var r := SkipRun();
    if i == 6 {
      assert Advance(r[6], r[7], 1, 0);
    } else if i == 7 {
      assert Clear(r[7], r[8], 1);
    } else {
      assert Uncount(r[8], r[9], 1, Cleared);
    }
  }

  /** After it every thread is idle, no capture is left, and the gate still counts one. */
  lemma SkippedReleaseStays()
    ensures Run(SkipRun())
    ensures var s := SkipRun()[9];
            && s.pc == Both(Idle, Idle) && s.caps.live == {} && s.count == 0
            && s.gate.admitted == 0 && s.gate.active == 1
  {
    forall i: nat | i + 1 < |SkipRun()|
      ensures StepAt(SkipRun(), i)
    {
      if i < 3 { SkipRunBegins(i); } else if i < 6 { SkipRunSkips(i); } else { SkipRunEnds(i); }
    }
  }
}
