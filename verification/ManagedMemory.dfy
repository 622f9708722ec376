/** Coherence of one tracked managed allocation (cuda_client_memcpy.cpp): the client
    bytes, the server bytes, the page protections, the stale state with its fresh
    chunks, and the dirty ranges. `truth` is the memory the program is promised:
    the last value written by the host or by the device. */
module ManagedMemory {

  type Byte = bv8

  /** LUPINE_DEMAND_FETCH_CHUNK_BYTES and LUPINE_DEMAND_FETCH_READAHEAD_CAP. */
  const CHUNK: nat := 64 * 1024
  const READAHEAD_CAP: nat := 4 * 1024 * 1024

  datatype Protection = Hidden | Readable | Writable

  /** device_stale: 0, 1, 2 and 3. */
  datatype Stale = Fresh | Invalidated | Fetching | Invalidating

  /** Offsets of a dirty range. */
  datatype Range = Range(start: nat, end: nat)

  /** page_size, page_count, the pages in one chunk, size and storage_size. */
  datatype Shape = Shape(page: nat, pages: nat, perChunk: nat, size: nat, storage: nat)

  /** Storage is the size rounded up to pages, and pages divide a chunk. */
  predicate WellShaped(sh: Shape) {
    && sh.page > 0 && sh.page * sh.perChunk == CHUNK
    && sh.page * sh.pages == sh.storage && 0 < sh.size <= sh.storage < sh.size + sh.page
  }

  function Chunks(storage: nat): nat { (storage + CHUNK - 1) / CHUNK }

  /** Protections are kept per byte; every change covers whole pages. `unseen` says
      that the device has written since the last invalidation. */
  datatype Memory = Memory(sh: Shape, client: seq<Byte>, server: seq<Byte>, truth: seq<Byte>,
                           prot: seq<Protection>, stale: Stale, chunks: seq<bool>,
                           queue: seq<Range>, fullDirty: bool, flushDue: bool,
                           work: bool, unseen: bool)

  // ----- The invariant -----

  predicate Sized(m: Memory) {
    && WellShaped(m.sh)
    && |m.client| == |m.server| == |m.truth| == |m.prot| == m.sh.storage
    && |m.chunks| == Chunks(m.sh.storage)
  }

  /** The client copy of byte `i` has not been invalidated, or was fetched since. */
  predicate Current(m: Memory, i: nat)
    requires Sized(m) && i < m.sh.storage
  {
    m.stale == Fresh || m.chunks[i / CHUNK]
  }

  predicate Within(r: Range, i: nat) { r.start <= i < r.end }

  ghost predicate Queued(queue: seq<Range>, i: nat) {
    exists k :: 0 <= k < |queue| && Within(queue[k], i)
  }

  ghost predicate Dirty(m: Memory, i: nat) {
    m.fullDirty || Queued(m.queue, i)
  }

  predicate Clean(m: Memory) { m.queue == [] && !m.fullDirty }

  /** How the protection of a byte goes with its state. */
  ghost predicate ProtOk(m: Memory, i: nat)
    requires Sized(m) && i < m.sh.storage
  {
    && (!Current(m, i) ==> m.prot[i] == Hidden)
    && (m.prot[i] == Writable ==> Dirty(m, i))
    && (Queued(m.queue, i) ==> Current(m, i))
  }

  /** Which copies of a byte hold the promised value. */
  ghost predicate ValueOk(m: Memory, i: nat)
    requires Sized(m) && i < m.sh.storage
  {
    if m.unseen then m.server[i] == m.truth[i]
    else
      && (Current(m, i) ==> m.client[i] == m.truth[i])
      && (!Current(m, i) || !Dirty(m, i) ==> m.server[i] == m.truth[i])
  }

  ghost predicate Coherent(m: Memory) {
    && Sized(m)
    && (forall i :: 0 <= i < m.sh.storage ==> ProtOk(m, i))
    && (forall i :: 0 <= i < m.sh.size ==> ValueOk(m, i))
    && (forall k :: 0 <= k < |m.queue| ==> RangeOk(m.sh, m.queue[k]))
    && (!Clean(m) ==> m.flushDue)
    && (m.unseen ==> Clean(m) && m.work)
  }

  /** A dirty range is inside the storage and begins inside the data. */
  predicate RangeOk(sh: Shape, r: Range) {
    r.start < r.end <= sh.storage && r.start < sh.size
  }

  /** No byte that is current is hidden: only a stale byte faults on a read. */
  ghost predicate Visible(m: Memory)
    requires Sized(m)
  {
    forall i :: 0 <= i < m.sh.storage && Current(m, i) ==> m.prot[i] != Hidden
  }

  predicate Steady(m: Memory) { m.stale == Fresh || m.stale == Invalidated }

  // ----- Page and chunk arithmetic -----

  function PageStart(sh: Shape, i: nat): nat
    requires sh.page > 0
  {
    i / sh.page * sh.page
  }

  lemma NextMultiple(page: nat, x: nat, y: nat)
    requires page * x < page * y
    ensures page * x + page <= page * y
  {
    assert x < y;
    assert page * (x + 1) <= page * y;
  }

  lemma PageInChunk(page: nat, perChunk: nat, q: nat, c: nat, i: nat)
    requires page * q <= i < page * q + page && c * CHUNK <= i < c * CHUNK + CHUNK
    requires page * perChunk == CHUNK
    ensures c * CHUNK <= page * q && page * q + page <= c * CHUNK + CHUNK
  {
    assert page * (c * perChunk) == c * (page * perChunk);
    assert page * (c * perChunk + perChunk) == page * (c * perChunk) + page * perChunk;
    NextMultiple(page, q, c * perChunk + perChunk);
    if page * q < page * (c * perChunk) {
      NextMultiple(page, q, c * perChunk);
    }
  }

  /** A page lies in the storage and in one chunk. */
  lemma PageFits(sh: Shape, i: nat)
    requires WellShaped(sh) && i < sh.storage
    ensures PageStart(sh, i) <= i < PageStart(sh, i) + sh.page <= sh.storage
    ensures RangeOk(sh, Range(PageStart(sh, i), PageStart(sh, i) + sh.page))
    ensures forall j :: PageStart(sh, i) <= j < PageStart(sh, i) + sh.page ==> j / CHUNK == i / CHUNK
  {
    var q, c := i / sh.page, i / CHUNK;
    assert i == sh.page * q + i % sh.page;
    assert PageStart(sh, i) == sh.page * q;
    NextMultiple(sh.page, q, sh.pages);
    PageInChunk(sh.page, sh.perChunk, q, c, i);
  }

  /** A chunk that begins inside the storage begins inside the data, so clipping a
      fetch to the data never underflows. */
  lemma ChunkStartsInData(sh: Shape, c: nat)
    requires WellShaped(sh) && c * CHUNK < sh.storage
    ensures c * CHUNK < sh.size
  {
    assert c * CHUNK == sh.page * (c * sh.perChunk);
    NextMultiple(sh.page, c * sh.perChunk, sh.pages);
  }

  /** A byte is in a run of whole chunks exactly when its chunk begins there. */
  lemma ChunkOfByte(sh: Shape, a: nat, b: nat, i: nat)
    requires WholeChunks(sh, a, b) && i < sh.storage
    ensures i / CHUNK < Chunks(sh.storage)
    ensures a <= i < b <==> a <= i / CHUNK * CHUNK < b
  {
    var c := i / CHUNK;
    assert c * CHUNK <= i < c * CHUNK + CHUNK;
    var x := a / CHUNK;
    assert a == x * CHUNK;
    if b % CHUNK == 0 {
      var y := b / CHUNK;
      assert b == y * CHUNK;
    }
  }

  // ----- Effects on values -----

  /** `dst` with bytes [a, b) taken from `src`. */
  function Splice<T>(dst: seq<T>, src: seq<T>, a: nat, b: nat): (r: seq<T>)
    requires a <= b <= |dst| == |src|
    ensures |r| == |dst|
    ensures forall i :: 0 <= i < |dst| ==> r[i] == if a <= i < b then src[i] else dst[i]
  {
    dst[..a] + src[a..b] + dst[b..]
  }

  function Protect(prot: seq<Protection>, a: nat, b: nat, p: Protection): (r: seq<Protection>)
    requires a <= b <= |prot|
    ensures |r| == |prot|
    ensures forall i :: 0 <= i < |prot| ==> r[i] == if a <= i < b then p else prot[i]
  {
    Splice(prot, seq(|prot|, _ => p), a, b)
  }

  /** The chunks that begin in [a, b) become fresh. */
  function Freshen(chunks: seq<bool>, a: nat, b: nat): (r: seq<bool>)
    ensures |r| == |chunks|
    ensures forall c :: 0 <= c < |chunks| ==> r[c] == (chunks[c] || a <= c * CHUNK < b)
  {
    seq(|chunks|, c requires 0 <= c < |chunks| => chunks[c] || a <= c * CHUNK < b)
  }

  /** A fetch covers whole chunks, the last one up to the end of the storage. */
  predicate WholeChunks(sh: Shape, a: nat, b: nat) {
    a % CHUNK == 0 && a <= b <= sh.storage && (b % CHUNK == 0 || b == sh.storage)
  }

  /** A fetch of chunks, seen as one change. */
  function AfterFetch(m: Memory, a: nat, b: nat): Memory
    requires Sized(m) && WholeChunks(m.sh, a, b) && a <= Min(b, m.sh.size)
  {
    m.(client := Splice(m.client, m.server, a, Min(b, m.sh.size)), chunks := Freshen(m.chunks, a, b))
  }

  function Min(a: nat, b: nat): nat { if a < b then a else b }

  lemma AfterFetchCurrent(m: Memory, a: nat, b: nat, i: nat)
    requires Sized(m) && WholeChunks(m.sh, a, b) && a <= Min(b, m.sh.size) && i < m.sh.storage
    ensures Current(AfterFetch(m, a, b), i) <==> Current(m, i) || a <= i < b
  {
    ChunkOfByte(m.sh, a, b, i);
  }

  /** Fetching chunks that are not fresh keeps the memory coherent. */
  lemma FetchKeepsCoherent(m: Memory, a: nat, b: nat)
    requires Coherent(m) && !m.unseen && WholeChunks(m.sh, a, b) && a <= Min(b, m.sh.size)
    requires forall i :: a <= i < b ==> !Current(m, i)
    ensures Coherent(AfterFetch(m, a, b))
  {
    var n := AfterFetch(m, a, b);
    forall i | 0 <= i < m.sh.storage
      ensures ProtOk(n, i)
      ensures i < m.sh.size ==> ValueOk(n, i)
    {
      AfterFetchCurrent(m, a, b, i);
      assert ProtOk(m, i);
      assert i < m.sh.size ==> ValueOk(m, i);
    }
  }

  /** Going from 1 to 2 changes no byte. */
  lemma FetchingKeepsCoherent(m: Memory)
    requires Coherent(m) && m.stale == Invalidated
    ensures Coherent(m.(stale := Fetching))
    ensures Visible(m) ==> Visible(m.(stale := Fetching))
  {
    var n := m.(stale := Fetching);
    forall i | 0 <= i < m.sh.storage
      ensures ProtOk(n, i) && Current(n, i) == Current(m, i)
      ensures i < m.sh.size ==> ValueOk(n, i)
    {
      assert ProtOk(m, i);
      assert i < m.sh.size ==> ValueOk(m, i);
    }
  }

  /** lupine_sync_mapped_device_to_host and lupine_invalidate_launched_managed. */
  function Invalidation(m: Memory): Memory
    requires Sized(m)
  {
    m.(stale := Invalidated, chunks := seq(|m.chunks|, _ => false),
       prot := Protect(m.prot, 0, m.sh.storage, Hidden), unseen := false)
  }

  /** With no dirty range outstanding an invalidation keeps the promise. */
  lemma InvalidationKeepsCoherent(m: Memory)
    requires Coherent(m) && Clean(m)
    ensures Coherent(Invalidation(m)) && Visible(Invalidation(m))
  {
    var n := Invalidation(m);
    forall i | 0 <= i < m.sh.storage
      ensures ProtOk(n, i)
      ensures i < m.sh.size ==> ValueOk(n, i)
    {
      assert !Current(n, i);
      assert i < m.sh.size ==> ValueOk(m, i);
    }
  }

  // ----- Dirty pages -----

  lemma QueuedAppend(queue: seq<Range>, r: Range, i: nat)
    ensures Queued(queue + [r], i) <==> Queued(queue, i) || Within(r, i)
  {
    if Queued(queue, i) {
      var k :| 0 <= k < |queue| && Within(queue[k], i);
      assert Within((queue + [r])[k], i);
    }
    if Within(r, i) {
      assert Within((queue + [r])[|queue|], i);
    }
  }

  /** A store faulted on page [a, b): publish it, or mark everything when the queue
      is full, and let the store proceed. */
  function MarkDirty(m: Memory, a: nat, b: nat, full: bool): Memory
    requires Sized(m) && a < b <= m.sh.storage
  {
    m.(queue := if full then m.queue else m.queue + [Range(a, b)], fullDirty := m.fullDirty || full,
       flushDue := true, prot := Protect(m.prot, a, b, Writable))
  }

  lemma MarkKeepsCoherent(m: Memory, a: nat, b: nat, full: bool)
    requires Coherent(m) && Visible(m) && !m.unseen && RangeOk(m.sh, Range(a, b))
    requires forall i :: a <= i < b ==> Current(m, i)
    ensures Coherent(MarkDirty(m, a, b, full)) && Visible(MarkDirty(m, a, b, full))
  {
    var n := MarkDirty(m, a, b, full);
    forall i | 0 <= i < m.sh.storage
      ensures ProtOk(n, i)
      ensures i < m.sh.size ==> ValueOk(n, i)
    {
      QueuedAppend(m.queue, Range(a, b), i);
      assert ProtOk(m, i) && Current(n, i) == Current(m, i);
      assert i < m.sh.size ==> ValueOk(m, i);
    }
  }

  function AfterFinish(m: Memory, a: nat, b: nat): Memory
    requires Sized(m) && a <= b <= m.sh.storage
  {
    m.(prot := Protect(m.prot, a, b, Readable), stale := if AllFresh(m.chunks) then Fresh else Invalidated)
  }

  predicate AllFresh(chunks: seq<bool>) {
    forall c :: 0 <= c < |chunks| ==> chunks[c]
  }

  lemma FinishKeepsCoherent(m: Memory, a: nat, b: nat)
    requires Coherent(m) && !m.unseen && m.stale != Fresh && a <= b <= m.sh.storage
    requires forall i :: a <= i < b ==> Current(m, i)
    requires forall i :: 0 <= i < m.sh.storage && !(a <= i < b) && Current(m, i) ==> m.prot[i] != Hidden
    ensures Coherent(AfterFinish(m, a, b)) && Visible(AfterFinish(m, a, b))
  {
    var n := AfterFinish(m, a, b);
    forall i | 0 <= i < m.sh.storage
      ensures ProtOk(n, i)
      ensures i < m.sh.size ==> ValueOk(n, i)
      ensures Current(n, i) ==> n.prot[i] != Hidden
    {
      assert Current(n, i) == Current(m, i);
      assert ProtOk(m, i);
      assert i < m.sh.size ==> ValueOk(m, i);
    }
  }

  /** A store to a byte whose page admits it. */
  lemma StoreKeepsCoherent(m: Memory, i: nat, v: Byte)
    requires Coherent(m) && Visible(m) && !m.unseen && i < m.sh.size && m.prot[i] == Writable
    ensures Coherent(m.(client := m.client[i := v], truth := m.truth[i := v]))
    ensures Visible(m.(client := m.client[i := v], truth := m.truth[i := v]))
  {
    var n := m.(client := m.client[i := v], truth := m.truth[i := v]);
    assert ProtOk(m, i);
    forall j | 0 <= j < m.sh.storage
      ensures ProtOk(n, j)
      ensures j < m.sh.size ==> ValueOk(n, j)
    {
      assert Current(n, j) == Current(m, j) && ProtOk(m, j);
      assert j < m.sh.size ==> ValueOk(m, j);
    }
  }

  // ----- Flushing -----

  /** What a flush sends: the queued ranges, and everything if full_dirty is set. */
  function Outstanding(m: Memory): seq<Range> {
    if m.fullDirty then m.queue + [Range(0, m.sh.storage)] else m.queue
  }

  lemma OutstandingIsDirty(m: Memory, i: nat)
    requires i < m.sh.storage
    ensures Queued(Outstanding(m), i) <==> Dirty(m, i)
  {
    QueuedAppend(m.queue, Range(0, m.sh.storage), i);
  }

  /** The whole effect of a flush that succeeds. */
  ghost predicate FlushedTo(m: Memory, n: Memory)
    requires Sized(m)
  {
    && |n.prot| == |m.prot| && |n.server| == |m.server|
    && n == m.(queue := [], fullDirty := false, flushDue := n.flushDue, prot := n.prot, server := n.server)
    && (forall i :: 0 <= i < m.sh.storage ==>
          n.prot[i] == if Queued(Outstanding(m), i) then Readable else m.prot[i])
    && (forall i :: 0 <= i < m.sh.storage ==>
          n.server[i] == if i < m.sh.size && Queued(Outstanding(m), i) then m.client[i] else m.server[i])
  }

  /** After a flush the device sees every earlier host write. */
  lemma FlushKeepsCoherent(m: Memory, n: Memory)
    requires Coherent(m) && Visible(m) && FlushedTo(m, n)
    requires m.fullDirty ==> m.stale == Fresh
    ensures Coherent(n) && Visible(n) && Clean(n)
    ensures forall i :: 0 <= i < m.sh.size ==> n.server[i] == m.truth[i]
  {
    forall i | 0 <= i < m.sh.storage
      ensures ProtOk(n, i)
      ensures i < m.sh.size ==> ValueOk(n, i) && n.server[i] == m.truth[i]
      ensures Current(n, i) ==> n.prot[i] != Hidden
    {
      OutstandingIsDirty(m, i);
      assert Current(n, i) == Current(m, i) && ProtOk(m, i);
      assert i < m.sh.size ==> ValueOk(m, i);
    }
  }

  // ----- Flushing over stale bytes -----

  /** Byte by byte, also when a fetch before the flush has failed: the flush leaves the
      server with another byte than promised exactly when full_dirty sends a stale one. */
  lemma FlushLosesByte(m: Memory, n: Memory, i: nat)
    requires Coherent(m) && FlushedTo(m, n) && i < m.sh.size
    ensures n.server[i] != m.truth[i] <==> m.fullDirty && !Current(m, i) && m.client[i] != m.truth[i]
  {
    OutstandingIsDirty(m, i);
    assert ValueOk(m, i) && ProtOk(m, i);
  }

  ghost function FlushOf(m: Memory): Memory
    requires Sized(m)
  {
    m.(queue := [], fullDirty := false,
       prot := seq(|m.prot|, i requires 0 <= i < |m.prot| =>
                 if Queued(Outstanding(m), i) then Readable else m.prot[i]),
       server := seq(|m.server|, i requires 0 <= i < |m.server| =>
                   if i < m.sh.size && Queued(Outstanding(m), i) then m.client[i] else m.server[i]))
  }

  ghost predicate ServerPromised(m: Memory)
    requires Sized(m)
  {
    forall i :: 0 <= i < m.sh.size ==> m.server[i] == m.truth[i]
  }

  /** Whatever the bytes are, the flush leaves the server with the promised ones. */
  ghost predicate SafeToFlush(m: Memory)
    requires Sized(m)
  {
    forall client, server, truth ::
      Coherent(WithBytes(m, client, server, truth)) ==> ServerPromised(FlushOf(WithBytes(m, client, server, truth)))
  }

  predicate SomeStale(m: Memory)
    requires Sized(m)
  {
    exists i :: 0 <= i < m.sh.size && !Current(m, i)
  }

  /** And that is so exactly unless full_dirty is set and some byte is still stale. */
  lemma FlushOfFullDirty(m: Memory)
    requires Coherent(m)
    ensures SafeToFlush(m) <==> !(m.fullDirty && SomeStale(m))
  {
    if m.fullDirty && SomeStale(m) {
      var i :| 0 <= i < m.sh.size && !Current(m, i);
      FlushLosesWrite(m, i);
    } else {
      forall client, server, truth | Coherent(WithBytes(m, client, server, truth))
        ensures ServerPromised(FlushOf(WithBytes(m, client, server, truth)))
      {
        SafeFlush(m, WithBytes(m, client, server, truth));
      }
    }
  }

  lemma SafeFlush(m: Memory, n: Memory)
    requires Sized(m) && !(m.fullDirty && SomeStale(m))
    requires n == WithBytes(m, n.client, n.server, n.truth) && Coherent(n)
    ensures ServerPromised(FlushOf(n))
  {
    forall i | 0 <= i < n.sh.size
      ensures FlushOf(n).server[i] == n.truth[i]
    {
      FlushLosesByte(n, FlushOf(n), i);
      assert Current(n, i) == Current(m, i);
    }
  }

  /** The lost write: the device stored 1 into byte `i`, the stale client copy holds 0. */
  lemma FlushLosesWrite(m: Memory, i: nat)
    requires Coherent(m) && m.fullDirty && i < m.sh.size && !Current(m, i)
    ensures !SafeToFlush(m)
  {
    var zeros := seq(m.sh.storage, _ => 0 as Byte);
    var ones := zeros[i := 1 as Byte];
    var n := WithBytes(m, zeros, ones, ones);
    forall j | 0 <= j < m.sh.storage
      ensures ProtOk(n, j)
      ensures j < m.sh.size ==> ValueOk(n, j)
    {
      assert ProtOk(m, j) && Current(n, j) == Current(m, j);
      assert j < m.sh.size ==> ValueOk(m, j);
    }
    assert Coherent(n);
    FlushLosesByte(n, FlushOf(n), i);
    assert FlushOf(n).server[i] != n.truth[i];
  }

  lemma CleanServer(m: Memory, i: nat)
    requires Coherent(m) && Clean(m) && i < m.sh.size
    ensures m.server[i] == m.truth[i]
  {
    assert ValueOk(m, i);
  }

  // ----- Synchronizing without a flush -----

  /** lupine_sync_mapped_device_to_host: nothing while a capture is open or when no
      request was made since the last time, otherwise an invalidation. */
  function Synced(m: Memory, capturing: bool): Memory
    requires Sized(m)
  {
    if capturing || !m.work then m else Invalidation(m).(work := false)
  }

  /** What the next host load of byte `i` returns: the client copy, or, when that is
      stale, the server's byte fetched over it. */
  function Sees(m: Memory, i: nat): Byte
    requires Sized(m) && i < m.sh.size
  {
    if Current(m, i) then m.client[i] else m.server[i]
  }

  /** Every load the host may now make returns the promised byte. */
  ghost predicate Promised(m: Memory)
    requires Sized(m)
  {
    !m.unseen ==> forall i :: 0 <= i < m.sh.size ==> Sees(m, i) == m.truth[i]
  }

  lemma CoherentIsPromised(m: Memory)
    requires Coherent(m)
    ensures Promised(m)
  {
    forall i | 0 <= i < m.sh.size
      ensures !m.unseen ==> Sees(m, i) == m.truth[i]
    {
      assert ValueOk(m, i);
    }
  }

  /** The same bookkeeping with other bytes in it. */
  function WithBytes(m: Memory, client: seq<Byte>, server: seq<Byte>, truth: seq<Byte>): Memory {
    m.(client := client, server := server, truth := truth)
  }

  ghost predicate DirtyHere(m: Memory, i: nat)
    requires Sized(m) && i < m.sh.storage
  {
    Current(m, i) && Dirty(m, i)
  }

  /** Some byte of the data is dirty and its client copy is current. */
  ghost predicate HoldsHostWrites(m: Memory)
    requires Sized(m)
  {
    exists i :: 0 <= i < m.sh.size && DirtyHere(m, i)
  }

  /** Byte by byte: a synchronization that no flush precedes, as a locally answered
      cuEventQuery makes, loses a host write exactly when it invalidates, the byte is
      dirty here, and the server has another value. */
  lemma SyncLosesByte(m: Memory, capturing: bool, i: nat)
    requires Coherent(m) && !m.unseen && i < m.sh.size
    ensures Sees(Synced(m, capturing), i) != m.truth[i] <==>
            m.work && !capturing && DirtyHere(m, i) && m.server[i] != m.client[i]
  {
    assert ValueOk(m, i);
    assert m.work && !capturing ==> !Current(Synced(m, capturing), i);
  }

  /** Whatever the bytes are, every load after the synchronization returns the
      promised byte. */
  ghost predicate SafeToSync(m: Memory, capturing: bool)
    requires Sized(m)
  {
    forall client, server, truth ::
      Coherent(WithBytes(m, client, server, truth)) ==> Promised(Synced(WithBytes(m, client, server, truth), capturing))
  }

  /** And that is so exactly when it does not invalidate or no dirty byte is here. */
  lemma SyncWithoutFlush(m: Memory, capturing: bool)
    requires Coherent(m)
    ensures SafeToSync(m, capturing) <==> !(m.work && !capturing && HoldsHostWrites(m))
  {
    if m.work && !capturing && HoldsHostWrites(m) {
      var i :| 0 <= i < m.sh.size && DirtyHere(m, i);
      SyncLosesWrite(m, i);
    } else {
      forall client, server, truth | Coherent(WithBytes(m, client, server, truth))
        ensures Promised(Synced(WithBytes(m, client, server, truth), capturing))
      {
        QuietSync(m, WithBytes(m, client, server, truth), capturing);
      }
    }
  }

  /** A synchronization that loses nothing also keeps the bookkeeping in order. */
  lemma QuietSync(m: Memory, n: Memory, capturing: bool)
    requires Sized(m) && !(m.work && !capturing && HoldsHostWrites(m))
    requires n == WithBytes(m, n.client, n.server, n.truth) && Coherent(n)
    ensures Coherent(Synced(n, capturing)) && Promised(Synced(n, capturing))
  {
    if m.work && !capturing {
      QuietInvalidation(m, n);
    }
    CoherentIsPromised(Synced(n, capturing));
  }

  lemma QuietInvalidation(m: Memory, n: Memory)
    requires Sized(m) && !HoldsHostWrites(m)
    requires n == WithBytes(m, n.client, n.server, n.truth) && Coherent(n)
    ensures Coherent(Invalidation(n).(work := false)) && Visible(Invalidation(n).(work := false))
  {
    var z := Invalidation(n).(work := false);
    if m.queue != [] {
      var i := m.queue[0].start;
      assert Within(m.queue[0], i) && Queued(m.queue, i);
      assert ProtOk(n, i) && DirtyHere(m, i);
    }
    forall i | 0 <= i < n.sh.storage
      ensures ProtOk(z, i) && !Current(z, i)
      ensures i < n.sh.size ==> ValueOk(z, i)
    {
      assert ProtOk(n, i) && Current(n, i) == Current(m, i);
      if i < n.sh.size {
        assert ValueOk(n, i) && !DirtyHere(m, i);
      }
    }
  }

  /** The lost write: the host stored 1 into byte `i`, and the next load fetches the
      server's 0 over it. */
  lemma SyncLosesWrite(m: Memory, i: nat)
    requires Coherent(m) && m.work && i < m.sh.size && DirtyHere(m, i)
    ensures !SafeToSync(m, false)
  {
    var zeros := seq(m.sh.storage, _ => 0 as Byte);
    var ones := zeros[i := 1 as Byte];
    var n := WithBytes(m, ones, zeros, ones);
    forall j | 0 <= j < m.sh.storage
      ensures ProtOk(n, j)
      ensures j < m.sh.size ==> ValueOk(n, j)
    {
      assert ProtOk(m, j) && Current(n, j) == Current(m, j);
      assert j < m.sh.size ==> ValueOk(m, j);
    }
    assert Coherent(n);
    SyncLosesByte(n, false, i);
    assert Sees(Synced(n, false), i) != Synced(n, false).truth[i];
  }
}
