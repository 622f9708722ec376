/** Folding the retains of a device's primary context into one forwarded retain
    (cuda_client.cpp). `Driver` is the CUDA driver's own bookkeeping for one device;
    the client is proved to answer as a driver that received every call. */
module PrimaryContexts {

  // ----- The driver -----

  /** `created` counts the times the context was made; the context made last is
      named by that count. */
  datatype Driver = Driver(count: nat, active: bool, created: nat)

  const IDLE := Driver(0, false, 0)

  datatype Answer = Context(context: nat) | Success | Error | State(active: bool)

  /** The calls, with what the device makes of them where it has a say: whether a
      context can be created, and whether a reset succeeds. */
  datatype Call = Retain(possible: bool) | Release | Reset(possible: bool) | GetState

  /** A retain makes the context active; a release that drops the last reference and
      a reset make it inactive; a reset keeps the count. */
  function Apply(d: Driver, c: Call): (Driver, Answer) {
    match c
    case Retain(possible) =>
      if d.active then (d.(count := d.count + 1), Context(d.created))
      else if possible then (Driver(d.count + 1, true, d.created + 1), Context(d.created + 1))
      else (d, Error)
    case Release =>
      if d.count == 0 then (d, Error)
      else (d.(count := d.count - 1, active := d.active && d.count > 1), Success)
    case Reset(possible) =>
      if possible then (d.(active := false), Success) else (d, Error)
    case GetState => (d, State(d.active))
  }

  function At(drivers: map<int, Driver>, device: int): Driver {
    if device in drivers then drivers[device] else IDLE
  }

  // ----- The client -----

  datatype Retained = Retained(context: nat, count: int, forwarded: bool)

  /** One device: the client's entry, the server's driver, and the driver that would
      have received every call. */
  predicate Folds(entry: map<int, Retained>, device: int, server: Driver, ideal: Driver) {
    && server.created == ideal.created && server.active == ideal.active
    && server.count == (if server.active then 1 else 0)
    && if device !in entry then ideal.count == 0 && !ideal.active
       else
         && entry[device].count == ideal.count > 0
         && entry[device].forwarded == ideal.active
         && (ideal.active ==> entry[device].context == ideal.created)
  }

  ghost predicate AllFold(entry: map<int, Retained>, server: map<int, Driver>, ideal: map<int, Driver>) {
    forall device: int {:trigger At(server, device)} :: Folds(entry, device, At(server, device), At(ideal, device))
  }

  ghost predicate SameElsewhere<T>(a: map<int, T>, b: map<int, T>, device: int) {
    forall d: int :: d != device ==> (d in a <==> d in b) && (d in a ==> a[d] == b[d])
  }

  ghost predicate Current(states: map<int, bool>, ideal: map<int, Driver>) {
    forall device :: device in states ==> states[device] == At(ideal, device).active
  }

  /** A call touches one device. */
  lemma OneDevice(entry: map<int, Retained>, server: map<int, Driver>, ideal: map<int, Driver>,
                  entry': map<int, Retained>, server': map<int, Driver>, ideal': map<int, Driver>, device: int)
    requires AllFold(entry, server, ideal)
    requires SameElsewhere(entry, entry', device) && SameElsewhere(server, server', device)
    requires SameElsewhere(ideal, ideal', device)
    requires Folds(entry', device, At(server', device), At(ideal', device))
    ensures AllFold(entry', server', ideal')
  {
    forall d: int
      ensures Folds(entry', d, At(server', d), At(ideal', d))
    {
      assert Folds(entry, d, At(server, d), At(ideal, d));
    }
  }

  class Client {
    /** lupine_primary_ctx_retains, and the drivers of the server it talks to. */
    var retains: map<int, Retained>
    var server: map<int, Driver>
    /** lupine_primary_ctx_state_cache: the activity last asked for. */
    var states: map<int, bool>
    /** What drivers that received every call would hold. */
    ghost var ideal: map<int, Driver>

    ghost predicate Valid()
      reads this
    {
      AllFold(retains, server, ideal) && Current(states, ideal)
    }

    constructor ()
      ensures Valid() && retains == map[] && ideal == map[]
    {
      retains, server, states, ideal := map[], map[], map[], map[];
    }

    /** A call that goes to the server. */
    method Forward(device: int, c: Call) returns (r: Answer)
      modifies this`server
      ensures server == old(server)[device := Apply(At(old(server), device), c).0]
      ensures r == Apply(At(old(server), device), c).1
    {
      var next := Apply(At(server, device), c);
      server := server[device := next.0];
      r := next.1;
    }

    /** Every call answers as the ideal driver does and moves it on. */
    twostate predicate Answered(device: int, c: Call, r: Answer)
      reads this
    {
      && r == Apply(At(old(ideal), device), c).1
      && ideal == old(ideal)[device := Apply(At(old(ideal), device), c).0]
    }

    method PrimaryRetain(device: int, possible: bool) returns (r: Answer)
      requires Valid()
      modifies this
      ensures Valid() && Answered(device, Retain(possible), r)
    {
      assert Folds(retains, device, At(server, device), At(ideal, device));
      ideal := ideal[device := Apply(At(ideal, device), Retain(possible)).0];
      if device !in retains || !retains[device].forwarded {
        states := states - {device};
        r := Forward(device, Retain(possible));
        if !r.Context? {
          OneDevice(old(retains), old(server), old(ideal), retains, server, ideal, device);
          return;
        }
        var count := if device in retains then retains[device].count else 0;
        retains := retains[device := Retained(r.context, count, true)];
      }
      retains := retains[device := retains[device].(count := retains[device].count + 1)];
      r := Context(retains[device].context);
      OneDevice(old(retains), old(server), old(ideal), retains, server, ideal, device);
    }

    method PrimaryRelease(device: int) returns (r: Answer)
      requires Valid()
      modifies this
      ensures Valid() && Answered(device, Release, r)
    {
      assert Folds(retains, device, At(server, device), At(ideal, device));
      ideal := ideal[device := Apply(At(ideal, device), Release).0];
      if device in retains {
        var entry := retains[device].(count := retains[device].count - 1);
        retains := retains[device := entry];
        if entry.count > 0 {
          OneDevice(old(retains), old(server), old(ideal), retains, server, ideal, device);
          return Success;
        }
        retains := retains - {device};
        if !entry.forwarded {
          OneDevice(old(retains), old(server), old(ideal), retains, server, ideal, device);
          return Success;
        }
      }
      states := states - {device};
      r := Forward(device, Release);
      OneDevice(old(retains), old(server), old(ideal), retains, server, ideal, device);
    }

    method PrimaryReset(device: int, possible: bool) returns (r: Answer)
      requires Valid()
      modifies this
      ensures Valid() && Answered(device, Reset(possible), r)
    {
      assert Folds(retains, device, At(server, device), At(ideal, device));
      ideal := ideal[device := Apply(At(ideal, device), Reset(possible)).0];
      states := states - {device};
      r := Forward(device, Reset(possible));
      if r.Success? && device in retains && retains[device].forwarded {
        retains := retains[device := retains[device].(forwarded := false)];
        var _ := Forward(device, Release);
      }
      OneDevice(old(retains), old(server), old(ideal), retains, server, ideal, device);
    }

    method PrimaryState(device: int) returns (r: Answer)
      requires Valid()
      modifies this
      ensures Valid() && Answered(device, GetState, r)
    {
      assert Folds(retains, device, At(server, device), At(ideal, device));
      ideal := ideal[device := Apply(At(ideal, device), GetState).0];
      if device in states {
        r := State(states[device]);
      } else {
        r := Forward(device, GetState);
        states := states[device := r.active];
      }
      OneDevice(old(retains), old(server), old(ideal), retains, server, ideal, device);
    }

    method Make(device: int, c: Call) returns (r: Answer)
      requires Valid()
      modifies this
      ensures Valid() && Answered(device, c, r)
    {
      match c
      case Retain(possible) => r := PrimaryRetain(device, possible);
      case Release => r := PrimaryRelease(device);
      case Reset(possible) => r := PrimaryReset(device, possible);
      case GetState => r := PrimaryState(device);
    }

    /** At any time the server holds one reference for a forwarded entry and none
        otherwise, however many the program holds. */
    lemma OneReference(device: int)
      requires Valid()
      ensures At(server, device).count == (if device in retains && retains[device].forwarded then 1 else 0)
      ensures At(server, device).active == At(ideal, device).active
      ensures At(ideal, device).count == if device in retains then retains[device].count else 0
    {
      assert Folds(retains, device, At(server, device), At(ideal, device));
    }
  }

  // ----- Whole programs -----

  /** What drivers that receive every call answer. */
  function Answers(drivers: map<int, Driver>, calls: seq<(int, Call)>): seq<Answer>
    decreases |calls|
  {
    if calls == [] then []
    else
      var next := Apply(At(drivers, calls[0].0), calls[0].1);
      [next.1] + Answers(drivers[calls[0].0 := next.0], calls[1..])
  }

  /** Every program sees the answers it would see without the folding. */
  method Run(calls: seq<(int, Call)>) returns (answers: seq<Answer>)
    ensures answers == Answers(map[], calls)
  {
    var client := new Client();
    answers := [];
    for i := 0 to |calls|
      invariant client.Valid()
      invariant answers + Answers(client.ideal, calls[i..]) == Answers(map[], calls)
    {
      ghost var before := client.ideal;
      var r := client.Make(calls[i].0, calls[i].1);
      assert calls[i..][1..] == calls[i + 1..];
      assert Answers(before, calls[i..]) == [r] + Answers(client.ideal, calls[i + 1..]);
      assert answers + ([r] + Answers(client.ideal, calls[i + 1..])) == answers + [r] + Answers(client.ideal, calls[i + 1..]);
      answers := answers + [r];
    }
  }
}
