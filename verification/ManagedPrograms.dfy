/** Whole programs over a managed allocation: every sequence of host accesses,
    kernels and synchronizations sees what a single flat memory would show. */
module ManagedPrograms {
  import opened ManagedMemory
  import opened ManagedAllocation

  /** `full` says that the shared dirty queue has no slot left at that moment. A
      synchronization is a call that makes a request; a LocalQuery is a cuEventQuery
      that is answered without one. */
  datatype Operation =
    | Read(at: nat, full: bool)
    | Write(at: nat, value: Byte, full: bool)
    | Kernel(result: seq<Byte>, passed: bool)
    | Synchronize
    | LocalQuery

  datatype Observation = HostSaw(value: Byte) | DeviceSaw(bytes: seq<Byte>) | Nothing

  /** What a program has done: a kernel reached the allocation through nested pointers
      and nothing has synchronized since; a request was made since the last
      synchronization; the host has written since the last request. */
  datatype Past = Past(unseen: bool, work: bool, written: bool)

  function After(p: Past, op: Operation): Past {
    match op
    case Read(_, _) => p
    case Write(_, _, _) => p.(written := true)
    case Kernel(_, passed) => Past(!passed, true, false)
    case Synchronize => Past(false, false, false)
    case LocalQuery => Past(false, false, p.written)
  }

  /** The operation is in bounds; the host does not touch the allocation between a
      kernel that reached it through nested pointers and the next synchronization or
      launch that names it; and no event query is answered locally between a host
      write that follows a request and the next request. */
  predicate Allowed(size: nat, p: Past, op: Operation) {
    match op
    case Read(at, _) => at < size && !p.unseen
    case Write(at, _, _) => at < size && !p.unseen
    case Kernel(result, _) => |result| == size
    case Synchronize => true
    case LocalQuery => !(p.work && p.written)
  }

  predicate Legal(size: nat, ops: seq<Operation>, p: Past) {
    ops == [] || (Allowed(size, p, ops[0]) && Legal(size, ops[1..], After(p, ops[0])))
  }

  /** One flat memory. */
  function Flat(memory: seq<Byte>, ops: seq<Operation>): seq<Observation>
    decreases |ops|
  {
    if ops == [] then []
    else [Shown(memory, ops[0])] + Flat(Changed(memory, ops[0]), ops[1..])
  }

  function Shown(memory: seq<Byte>, op: Operation): Observation {
    match op
    case Read(at, _) => if at < |memory| then HostSaw(memory[at]) else Nothing
    case Write(_, _, _) => Nothing
    case Kernel(_, _) => DeviceSaw(memory)
    case Synchronize => Nothing
    case LocalQuery => Nothing
  }

  function Changed(memory: seq<Byte>, op: Operation): seq<Byte> {
    match op
    case Read(_, _) => memory
    case Write(at, value, _) => if at < |memory| then memory[at := value] else memory
    case Kernel(result, _) => result
    case Synchronize => memory
    case LocalQuery => memory
  }

  /** The allocation is where the program's past says. */
  ghost predicate Stands(a: Allocation, p: Past)
    reads a
  {
    && a.Valid() && a.unseen == p.unseen && (a.work ==> p.work)
    && (!p.written ==> a.NothingDirty())
  }

  /** The operation showed and changed what it does in a flat memory. */
  twostate predicate Matched(a: Allocation, op: Operation, p: Past, seen: Observation)
    reads a
  {
    && Stands(a, After(p, op)) && |old(a.truth)| == |a.truth| == a.sh.storage && a.sh.size <= a.sh.storage
    && seen == Shown(old(a.truth)[..a.sh.size], op)
    && a.truth[..a.sh.size] == Changed(old(a.truth)[..a.sh.size], op)
  }

  method HostStep(a: Allocation, op: Operation, ghost p: Past) returns (seen: Observation)
    requires Stands(a, p) && Allowed(a.sh.size, p, op) && (op.Read? || op.Write?)
    modifies a
    ensures Matched(a, op, p, seen)
  {
    if op.Read? {
      var v := a.HostRead(op.at, op.full);
      seen := HostSaw(v);
    } else {
      a.HostWrite(op.at, op.value, op.full);
      seen := Nothing;
    }
  }

  method LocalStep(a: Allocation, ghost p: Past) returns (seen: Observation)
    requires Stands(a, p) && Allowed(a.sh.size, p, LocalQuery)
    modifies a
    ensures Matched(a, LocalQuery, p, seen)
  {
    ghost var m := a.View();
    assert a.NothingDirty() ==> Clean(m) && !HoldsHostWrites(m);
    a.SyncMappedDeviceToHost(false);
    seen := Nothing;
    assert a.View().truth == m.truth;
  }

  method Step(a: Allocation, op: Operation, ghost p: Past) returns (seen: Observation)
    requires Stands(a, p) && Allowed(a.sh.size, p, op)
    modifies a
    ensures Matched(a, op, p, seen)
  {
    seen := Nothing;
    match op {
      case Read(_, _) => seen := HostStep(a, op, p);
      case Write(_, _, _) => seen := HostStep(a, op, p);
      case Kernel(result, passed) =>
        var bytes := a.Launch(result, passed);
        seen := DeviceSaw(bytes);
      case Synchronize => a.Synchronize();
      case LocalQuery => seen := LocalStep(a, p);
    }
  }

  /** Every legal program, whatever overflows, sees the flat memory. */
  method Run(a: Allocation, ops: seq<Operation>, ghost p: Past) returns (log: seq<Observation>)
    requires Stands(a, p) && Legal(a.sh.size, ops, p)
    modifies a
    ensures a.Valid() && log == Flat(old(a.truth[..a.sh.size]), ops)
  {
    log := [];
    ghost var memory, past := a.truth[..a.sh.size], p;
    for n := 0 to |ops|
      invariant Stands(a, past) && memory == a.truth[..a.sh.size] && Legal(a.sh.size, ops[n..], past)
      invariant Flat(old(a.truth[..a.sh.size]), ops) == log + Flat(memory, ops[n..])
    {
      assert ops[n..][0] == ops[n] && ops[n..][1..] == ops[n + 1..];
      var seen := Step(a, ops[n], past);
      memory, past := Changed(memory, ops[n]), After(past, ops[n]);
      log := log + [seen];
    }
  }

  /** A program starts from a new allocation. */
  method Start(sh: Shape, bytes: seq<Byte>) returns (a: Allocation)
    requires WellShaped(sh) && |bytes| == sh.storage
    ensures fresh(a) && a.sh == sh && a.truth == bytes && Stands(a, Past(false, false, false))
    ensures a.client == bytes && a.flushed >= a.required
  {
    a := new Allocation(sh, bytes);
  }

  /** What the last condition of Legal shuts out: after a request the host writes any
      value to any byte, a query is answered locally, and the host reads its byte back.
      It gets the byte from before its own write. */
  method LostWrite(sh: Shape, bytes: seq<Byte>, at: nat, value: Byte) returns (v: Byte, ghost promised: Byte)
    requires WellShaped(sh) && |bytes| == sh.storage && at < sh.size
    ensures v == bytes[at] && promised == value
  {
    var a := Start(sh, bytes);
    a.PrepareRpc();
    a.HostWrite(at, value, false);
    a.SyncMappedDeviceToHost(false);
    promised := a.truth[at];
    v := a.Load(at);
  }

  /** The first fault after an invalidation. */
  method FaultAt(a: Allocation, at: nat, other: nat)
    requires a.Valid() && !a.unseen && at < a.sh.size && other < a.sh.size && at / CHUNK != other / CHUNK
    requires a.stale == Invalidated && AllStale(a.chunks) && a.seqNext == 0 && a.readahead == 0
    modifies a
    ensures a.Valid() && !a.unseen && a.truth == old(a.truth) && Current(a.View(), at)
    ensures a.stale == Invalidated && !a.chunks[other / CHUNK] && a.client[other] == old(a.client)[other]
  {
    ghost var m := a.View();
    var start, end := a.FetchFault(at);
    DemandFetchKeepsCoherent(m, start, FetchLimit(start, 0, 0, a.sh.storage), end);
    OthersStayStale(m, at, other, end);
  }

  /** The device writes, and the host stores to one byte while the dirty queue is full. */
  method StoreWhileStale(sh: Shape, bytes: seq<Byte>, result: seq<Byte>, at: nat, value: Byte, other: nat)
    returns (a: Allocation)
    requires WellShaped(sh) && |bytes| == sh.storage && |result| == sh.size
    requires at < sh.size && other < sh.size && at / CHUNK != other / CHUNK
    ensures fresh(a) && a.Valid() && a.sh == sh && a.fullDirty && a.stale == Invalidated
    ensures !a.chunks[other / CHUNK] && a.client[other] == bytes[other] && a.truth[other] == result[other]
  {
    a := Start(sh, bytes);
    var _ := a.Launch(result, true);
    assert a.truth[other] == a.truth[..sh.size][other];
    FaultAt(a, at, other);
    a.MarkPage(at, true);
    a.Store(at, value);
  }

  /** A flush after a failed fetch: then every fetch fails, and the flush sends the old
      bytes of every other chunk over what the device wrote. */
  method LostDeviceWrite(sh: Shape, bytes: seq<Byte>, result: seq<Byte>, at: nat, value: Byte, other: nat)
    returns (v: Byte, ghost promised: Byte)
    requires WellShaped(sh) && |bytes| == sh.storage && |result| == sh.size
    requires at < sh.size && other < sh.size && at / CHUNK != other / CHUNK
    ensures v == bytes[other] && promised == result[other]
  {
    var a := StoreWhileStale(sh, bytes, result, at, value, other);
    var fails := set c | 0 <= c < |a.chunks| :: c * CHUNK;
    assert a.AllFail(fails);
    ghost var _ := a.FlushRoute(fails);
    v, promised := a.server[other], a.truth[other];
  }
}
