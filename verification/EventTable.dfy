/** The table of event completions (events.h, events.cpp): sixteen slots, each with
    the stamp of the event's current record and whether that record is known to
    be complete. */
module EventTable {

  type Event = nat

  /** kLupineEventQueryBatch, and the null event of an empty slot. */
  const SLOTS: nat := 16
  const NO_EVENT: Event := 0

  datatype Slot = Slot(event: Event, record: nat, complete: bool)

  const EMPTY := Slot(NO_EVENT, 0, false)

  /** A query's claim ticket: the event and the record stamp it asked about. */
  datatype Token = Token(event: Event, record: nat)

  // ----- What the operations compute -----

  /** The first slot of the event, or the length. */
  function Find(slots: seq<Slot>, e: Event): (i: nat)
    ensures i <= |slots|
    ensures i < |slots| ==> slots[i].event == e
    ensures forall j :: 0 <= j < i ==> slots[j].event != e
  {
    if slots == [] then 0 else if slots[0].event == e then 0 else 1 + Find(slots[1..], e)
  }

  /** The slot to evict: the first of those with the least stamp. */
  predicate IsOldest(slots: seq<Slot>, v: nat) {
    && v < |slots|
    && (forall j :: 0 <= j < |slots| ==> slots[v].record <= slots[j].record)
    && (forall j :: 0 <= j < v ==> slots[v].record < slots[j].record)
  }

  ghost predicate Recorded(slots: seq<Slot>, e: Event, r: nat, slots': seq<Slot>) {
    exists v :: 0 <= v < |slots| && RecordedAt(slots, e, r, slots', v)
  }

  /** A record of `e` with stamp `r` went to slot `v`. */
  predicate RecordedAt(slots: seq<Slot>, e: Event, r: nat, slots': seq<Slot>, v: nat)
    requires v < |slots|
  {
    && (if Find(slots, e) < |slots| then v == Find(slots, e) else IsOldest(slots, v))
    && slots' == slots[v := Slot(e, r, false)]
  }

  function Forget(slots: seq<Slot>, e: Event): (r: seq<Slot>)
    ensures |r| == |slots|
    ensures forall i :: 0 <= i < |slots| ==> r[i] == if slots[i].event == e then EMPTY else slots[i]
  {
    seq(|slots|, i requires 0 <= i < |slots| => if slots[i].event == e then EMPTY else slots[i])
  }

  /** A completion is cached where event and stamp still match. */
  function Complete(slots: seq<Slot>, t: Token): (r: seq<Slot>)
    ensures |r| == |slots|
  {
    var i := FindToken(slots, t);
    if i < |slots| then slots[i := slots[i].(complete := true)] else slots
  }

  function FindToken(slots: seq<Slot>, t: Token): (i: nat)
    ensures i <= |slots|
    ensures i < |slots| ==> slots[i].event == t.event && slots[i].record == t.record
    ensures forall j :: 0 <= j < i ==> slots[j].event != t.event || slots[j].record != t.record
  {
    if slots == [] then 0
    else if slots[0].event == t.event && slots[0].record == t.record then 0
    else 1 + FindToken(slots[1..], t)
  }

  /** The first `n` answers of a reply, in order. */
  function CompleteAll(slots: seq<Slot>, tokens: seq<Token>, results: seq<bool>, n: nat): (r: seq<Slot>)
    requires n <= |tokens| == |results|
    ensures |r| == |slots|
  {
    if n == 0 then slots
    else
      var front := CompleteAll(slots, tokens, results, n - 1);
      if results[n - 1] && tokens[n - 1].record != 0 then Complete(front, tokens[n - 1]) else front
  }

  /** Pending events other than `exclude` that ride along with a query. */
  function Pending(slots: seq<Slot>, exclude: Event, onRoute: set<Event>, n: nat): seq<Token>
    requires n <= |slots|
  {
    if n == 0 then []
    else
      var s := slots[n - 1];
      Pending(slots, exclude, onRoute, n - 1)
      + if s.event != NO_EVENT && s.event != exclude && !s.complete && s.event in onRoute
        then [Token(s.event, s.record)] else []
  }

  /** No event has two slots. */
  ghost predicate Distinct(slots: seq<Slot>) {
    forall i, j :: 0 <= i < j < |slots| && slots[i].event != NO_EVENT ==> slots[i].event != slots[j].event
  }

  // ----- What they preserve -----

  lemma RecordKeepsDistinct(slots: seq<Slot>, e: Event, r: nat, slots': seq<Slot>)
    requires Distinct(slots) && Recorded(slots, e, r, slots')
    ensures Distinct(slots')
  {
  }

  lemma ForgetKeepsDistinct(slots: seq<Slot>, e: Event)
    ensures Distinct(slots) ==> Distinct(Forget(slots, e))
  {
  }

  lemma {:induction false} CompleteAllKeeps(slots: seq<Slot>, tokens: seq<Token>, results: seq<bool>, n: nat)
    requires n <= |tokens| == |results|
    ensures forall i :: 0 <= i < |slots| ==>
              var s := CompleteAll(slots, tokens, results, n)[i];
              s.event == slots[i].event && s.record == slots[i].record
    ensures forall i :: 0 <= i < |slots| && CompleteAll(slots, tokens, results, n)[i].complete && !slots[i].complete ==>
              exists k :: 0 <= k < n && results[k] && tokens[k].record != 0
                          && tokens[k] == Token(slots[i].event, slots[i].record)
  {
    if n > 0 {
      CompleteAllKeeps(slots, tokens, results, n - 1);
    }
  }

  predicate Carries(s: Slot, t: Token) { s.event == t.event && s.record == t.record }

  /** Some slot still carries the token. */
  ghost predicate Matches(slots: seq<Slot>, t: Token) {
    exists i :: 0 <= i < |slots| && Carries(slots[i], t)
  }

  lemma {:induction false} PendingMatch(slots: seq<Slot>, exclude: Event, onRoute: set<Event>, n: nat)
    requires n <= |slots|
    ensures forall k :: 0 <= k < |Pending(slots, exclude, onRoute, n)| ==> Matches(slots, Pending(slots, exclude, onRoute, n)[k])
  {
    if n > 0 {
      PendingMatch(slots, exclude, onRoute, n - 1);
      var t := Token(slots[n - 1].event, slots[n - 1].record);
      assert Carries(slots[n - 1], t);
      assert Matches(slots, t);
    }
  }

  // ----- The operations -----

  class Table {
    const slots: array<Slot>
    var recordSeq: nat

    constructor ()
      ensures slots.Length == SLOTS && fresh(slots) && recordSeq == 0
      ensures forall i :: 0 <= i < SLOTS ==> slots[i] == EMPTY
    {
      slots := new Slot[SLOTS](_ => EMPTY);
      recordSeq := 0;
    }

    /** lupine_event_invalidate_completion. */
    method InvalidateCompletion(event: Event)
      requires slots.Length == SLOTS
      modifies this`recordSeq, slots
      ensures recordSeq == old(recordSeq) + 1
      ensures Recorded(old(slots[..]), event, recordSeq, slots[..])
    {
      recordSeq := recordSeq + 1;
      var record := recordSeq;
      var victim := 0;
      for i := 0 to SLOTS
        invariant victim < SLOTS && slots[..] == old(slots[..])
        invariant forall j :: 0 <= j < i ==> slots[j].event != event && slots[victim].record <= slots[j].record
        invariant forall j :: 0 <= j < victim ==> slots[victim].record < slots[j].record
      {
        if slots[i].event == event {
          assert Find(slots[..], event) == i;
          slots[i] := Slot(event, record, false);
          assert RecordedAt(old(slots[..]), event, record, slots[..], i);
          return;
        }
        if slots[i].record < slots[victim].record {
          victim := i;
        }
      }
      slots[victim] := Slot(event, record, false);
      assert RecordedAt(old(slots[..]), event, record, slots[..], victim);
    }

    /** lupine_event_forget. */
    method ForgetEvent(event: Event)
      modifies slots
      ensures slots[..] == Forget(old(slots[..]), event)
    {
      for i := 0 to slots.Length
        invariant forall j :: i <= j < slots.Length ==> slots[j] == old(slots[j])
        invariant forall j :: 0 <= j < i ==> slots[j] == if old(slots[j]).event == event then EMPTY else old(slots[j])
      {
        if slots[i].event == event {
          slots[i] := EMPTY;
        }
      }
    }

    /** lupine_event_query_needed, given the owed copies it loaded first. */
    method QueryNeeded(event: Event, copiesOwed: bool) returns (needed: bool, record: nat)
      ensures var i := Find(slots[..], event);
              if i < slots.Length then record == slots[i].record && needed == (copiesOwed || !slots[i].complete)
              else record == 0 && needed
    {
      for i := 0 to slots.Length
        invariant forall j :: 0 <= j < i ==> slots[j].event != event
      {
        if slots[i].event == event {
          assert Find(slots[..], event) == i;
          return copiesOwed || !slots[i].complete, slots[i].record;
        }
      }
      assert Find(slots[..], event) == slots.Length;
      return true, 0;
    }

    /** lupine_event_collect_query_batch, with the events of the connection. */
    method CollectQueryBatch(exclude: Event, onRoute: set<Event>) returns (tokens: seq<Token>)
      requires slots.Length == SLOTS
      ensures tokens == Pending(slots[..], exclude, onRoute, SLOTS) && |tokens| <= SLOTS
    {
      tokens := [];
      for i := 0 to SLOTS
        invariant |tokens| <= i && tokens == Pending(slots[..], exclude, onRoute, i)
      {
        if slots[i].event != NO_EVENT && slots[i].event != exclude && !slots[i].complete && slots[i].event in onRoute {
          tokens := tokens + [Token(slots[i].event, slots[i].record)];
        }
      }
    }

    /** lupine_event_cache_completions. */
    method CacheCompletions(tokens: seq<Token>, results: seq<bool>)
      requires |tokens| == |results|
      modifies slots
      ensures slots[..] == CompleteAll(old(slots[..]), tokens, results, |tokens|)
    {
      for n := 0 to |tokens|
        invariant slots[..] == CompleteAll(old(slots[..]), tokens, results, n)
      {
        if results[n] && tokens[n].record != 0 {
          CacheCompletion(tokens[n]);
        }
      }
    }

    method CacheCompletion(t: Token)
      modifies slots
      ensures slots[..] == Complete(old(slots[..]), t)
    {
      for j := 0 to slots.Length
        invariant slots[..] == old(slots[..])
        invariant forall k :: 0 <= k < j ==> slots[k].event != t.event || slots[k].record != t.record
      {
        if slots[j].event == t.event && slots[j].record == t.record {
          assert FindToken(slots[..], t) == j;
          slots[j] := slots[j].(complete := true);
          return;
        }
      }
      assert FindToken(slots[..], t) == slots.Length;
    }
  }
}
