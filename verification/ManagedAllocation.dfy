/** The operations on a tracked managed allocation, as the fault handler, the flush
    and the invalidations perform them (cuda_client_memcpy.cpp), for one client
    thread, a transport that fails at most in the fetches a flush makes, and no
    capture open at a launch. */
module ManagedAllocation {
  import opened ManagedMemory
  import Sending = HostRanges

  /** The new fetch_readahead of a fault in the chunk that begins at `start`. */
  function NextReadahead(start: nat, seqNext: nat, readahead: nat): nat {
    if Sequential(start, seqNext, readahead) then
      if readahead >= READAHEAD_CAP then readahead else Min(readahead * 2, READAHEAD_CAP)
    else CHUNK
  }

  predicate Sequential(start: nat, seqNext: nat, readahead: nat) {
    start != 0 && start == seqNext && readahead >= CHUNK
  }

  /** Where the fetch of that fault ends at the latest. */
  function FetchLimit(start: nat, seqNext: nat, readahead: nat, storage: nat): nat {
    if Sequential(start, seqNext, readahead) && readahead >= READAHEAD_CAP then storage
    else Min(start + NextReadahead(start, seqNext, readahead), storage)
  }

  function ChunkStart(i: nat): nat { i / CHUNK * CHUNK }

  lemma LimitAhead(fault: nat, seqNext: nat, readahead: nat, storage: nat)
    requires fault < storage
    ensures ChunkStart(fault) <= fault && ChunkStart(fault) % CHUNK == 0
    ensures ChunkStart(fault) < FetchLimit(ChunkStart(fault), seqNext, readahead, storage) <= storage
    ensures ChunkStart(fault) / CHUNK == fault / CHUNK < Chunks(storage)
  {
  }

  lemma FaultInRun(sh: Shape, fault: nat, end: nat)
    requires fault < sh.storage && ChunkStart(fault) < end && WholeChunks(sh, ChunkStart(fault), end)
    ensures fault < end
  {
    ChunkOfByte(sh, ChunkStart(fault), end, fault);
  }

  predicate StaleTo(chunks: seq<bool>, start: nat, end: nat) {
    forall c :: 0 <= c < |chunks| && start <= c * CHUNK < end ==> !chunks[c]
  }

  /** The run of stale chunks from `start` up to `limit`. */
  ghost predicate StaleRun(sh: Shape, chunks: seq<bool>, start: nat, limit: nat, end: nat) {
    && WholeChunks(sh, start, end) && StaleTo(chunks, start, end)
    && (end >= limit || (end / CHUNK < |chunks| && chunks[end / CHUNK]))
    && (limit % CHUNK == 0 ==> end <= limit)
  }

  /** The scanning loop of a fetch: how far the run reaches. */
  method RunEnd(sh: Shape, chunks: seq<bool>, start: nat, limit: nat) returns (end: nat)
    requires |chunks| == Chunks(sh.storage) && start % CHUNK == 0 && start < limit <= sh.storage
    ensures StaleRun(sh, chunks, start, limit, end)
    ensures start < end <==> !chunks[start / CHUNK]
  {
    end := start;
    ChunkAt(sh.storage, start);
    while end < limit && !chunks[end / CHUNK]
      invariant end % CHUNK == 0 && start <= end < limit + CHUNK && (end < limit ==> end / CHUNK < |chunks|)
      invariant start < end ==> !chunks[start / CHUNK]
      invariant StaleTo(chunks, start, end)
    {
      OneMoreStale(chunks, start, end);
      end := end + CHUNK;
      if end < limit { ChunkAt(sh.storage, end); }
    }
    RunReached(sh, chunks, start, limit, end);
    end := Min(end, sh.storage);
  }

  lemma ChunkAt(storage: nat, at: nat)
    requires at < storage
    ensures at / CHUNK < Chunks(storage)
  {
  }

  lemma OneMoreStale(chunks: seq<bool>, start: nat, end: nat)
    requires end % CHUNK == 0 && end / CHUNK < |chunks| && !chunks[end / CHUNK] && StaleTo(chunks, start, end)
    ensures (end + CHUNK) % CHUNK == 0 && StaleTo(chunks, start, end + CHUNK)
  {
    forall c | 0 <= c < |chunks| && start <= c * CHUNK < end + CHUNK
      ensures !chunks[c]
    {
      assert c * CHUNK < end || c == end / CHUNK;
    }
  }

  lemma RunReached(sh: Shape, chunks: seq<bool>, start: nat, limit: nat, end: nat)
    requires start % CHUNK == 0 && end % CHUNK == 0 && start <= end < limit + CHUNK && start < limit <= sh.storage
    requires StaleTo(chunks, start, end) && (end >= limit || (end / CHUNK < |chunks| && chunks[end / CHUNK]))
    ensures StaleRun(sh, chunks, start, limit, Min(end, sh.storage))
    ensures start < end <==> start < Min(end, sh.storage)
  {
    if limit % CHUNK == 0 { assert end <= limit; }
  }

  lemma RunIsStale(m: Memory, start: nat, limit: nat, end: nat)
    requires Sized(m) && m.stale != Fresh && StaleRun(m.sh, m.chunks, start, limit, end)
    ensures forall i :: start <= i < end ==> !Current(m, i)
  {
    forall i | start <= i < end
      ensures !Current(m, i)
    {
      ChunkOfByte(m.sh, start, end, i);
    }
  }

  /** A demand fetch from beginning to end. */
  function AfterDemandFetch(m: Memory, start: nat, end: nat): Memory
    requires Sized(m) && WholeChunks(m.sh, start, end) && start <= Min(end, m.sh.size)
  {
    AfterFinish(AfterFetch(m.(stale := Fetching), start, end), start, end)
  }

  lemma DemandFetchKeepsCoherent(m: Memory, start: nat, limit: nat, end: nat)
    requires Coherent(m) && Visible(m) && !m.unseen && m.stale == Invalidated
    requires StaleRun(m.sh, m.chunks, start, limit, end) && start <= Min(end, m.sh.size)
    ensures Coherent(AfterDemandFetch(m, start, end)) && Visible(AfterDemandFetch(m, start, end))
    ensures forall i :: start <= i < end ==> Current(AfterDemandFetch(m, start, end), i)
  {
    FetchingKeepsCoherent(m);
    var n := m.(stale := Fetching);
    RunIsStale(n, start, limit, end);
    FetchKeepsCoherent(n, start, end);
    var f := AfterFetch(n, start, end);
    forall j | 0 <= j < m.sh.storage
      ensures Current(f, j) <==> Current(n, j) || start <= j < end
    {
      AfterFetchCurrent(n, start, end, j);
    }
    FinishKeepsCoherent(f, start, end);
    FinishKeepsCurrent(f, start, end);
  }

  lemma FinishKeepsCurrent(m: Memory, start: nat, end: nat)
    requires Sized(m) && m.stale != Fresh && start <= end <= m.sh.storage
    ensures Sized(AfterFinish(m, start, end)) && AfterFinish(m, start, end).sh == m.sh
    ensures forall j :: 0 <= j < m.sh.storage ==> (Current(AfterFinish(m, start, end), j) <==> Current(m, j))
  {
  }

  /** The first fault after an invalidation fetches the chunk of its byte and no other. */
  lemma OneChunk(m: Memory, at: nat, other: nat, end: nat)
    requires Sized(m) && at < m.sh.storage && other < m.sh.size && at / CHUNK != other / CHUNK
    requires StaleRun(m.sh, m.chunks, ChunkStart(at), FetchLimit(ChunkStart(at), 0, 0, m.sh.storage), end)
    ensures end <= ChunkStart(at) + CHUNK && !(ChunkStart(at) <= other < end)
    ensures !(ChunkStart(at) <= other / CHUNK * CHUNK < end)
  {
    ChunkOfByte(m.sh, ChunkStart(at), end, other);
    var limit := FetchLimit(ChunkStart(at), 0, 0, m.sh.storage);
    assert limit == Min(ChunkStart(at) + CHUNK, m.sh.storage);
    assert limit == ChunkStart(at) + CHUNK ==> limit % CHUNK == 0;
  }

  lemma OthersStayStale(m: Memory, at: nat, other: nat, end: nat)
    requires Sized(m) && at < m.sh.storage && other < m.sh.size && at / CHUNK != other / CHUNK && AllStale(m.chunks)
    requires StaleRun(m.sh, m.chunks, ChunkStart(at), FetchLimit(ChunkStart(at), 0, 0, m.sh.storage), end)
    requires ChunkStart(at) <= Min(end, m.sh.size)
    ensures var n := AfterDemandFetch(m, ChunkStart(at), end);
            n.stale == Invalidated && !n.chunks[other / CHUNK] && n.client[other] == m.client[other]
  {
    OneChunk(m, at, other, end);
    ChunkAt(m.sh.storage, other);
    var f := AfterFetch(m.(stale := Fetching), ChunkStart(at), end);
    assert !f.chunks[other / CHUNK] && f.client[other] == m.client[other];
  }

  function RoundUp(i: nat): nat { (i + CHUNK - 1) / CHUNK * CHUNK }

  /** Where lupine_make_mapped_range_fresh stands: every chunk of [a, position) is
      fresh, and only those of [a, b) may still be hidden. */
  ghost predicate Span(m: Memory, a: nat, b: nat, position: nat) {
    && Coherent(m) && !m.unseen && a % CHUNK == 0 && a <= b <= m.sh.storage && b <= position
    && (position % CHUNK == 0 || position == m.sh.storage)
    && (forall i :: a <= i < position && i < m.sh.storage ==> Current(m, i))
    && (forall i :: 0 <= i < m.sh.storage && !(a <= i < b) && Current(m, i) ==> m.prot[i] != Hidden)
  }

  lemma StartSpan(m: Memory, i: nat)
    requires Coherent(m) && Visible(m) && !m.unseen && m.stale == Invalidated && i <= m.sh.storage
    ensures Span(m.(stale := Fetching), ChunkStart(i), ChunkStart(i), ChunkStart(i))
  {
    FetchingKeepsCoherent(m);
    ChunkStartBelow(i);
    SpanAt(m.(stale := Fetching), ChunkStart(i));
  }

  lemma ChunkStartBelow(i: nat)
    ensures ChunkStart(i) <= i < ChunkStart(i) + CHUNK && ChunkStart(i) % CHUNK == 0
  {
  }

  lemma SpanAt(m: Memory, a: nat)
    requires Coherent(m) && Visible(m) && !m.unseen && a % CHUNK == 0 && a <= m.sh.storage
    ensures Span(m, a, a, a)
  {
  }

  lemma EndSpan(m: Memory, a: nat, b: nat, position: nat)
    requires Span(m, a, b, position) && m.stale == Fetching
    ensures Coherent(AfterFinish(m, a, b)) && Visible(AfterFinish(m, a, b))
    ensures forall i :: 0 <= i < m.sh.storage ==> Current(AfterFinish(m, a, b), i) == Current(m, i)
  {
    FinishKeepsCoherent(m, a, b);
    forall i | 0 <= i < m.sh.storage
      ensures Current(AfterFinish(m, a, b), i) == Current(m, i)
    {
      assert i / CHUNK < |m.chunks|;
    }
  }

  lemma SameChunk(position: nat, i: nat)
    requires position % CHUNK == 0 && position <= i < position + CHUNK
    ensures i / CHUNK == position / CHUNK && (position + CHUNK) % CHUNK == 0
  {
  }

  lemma SkipFresh(m: Memory, a: nat, b: nat, position: nat)
    requires Span(m, a, b, position) && position % CHUNK == 0
    requires position < m.sh.storage && m.chunks[position / CHUNK]
    ensures Span(m, a, b, position + CHUNK)
  {
    forall i | position <= i < position + CHUNK && i < m.sh.storage
      ensures Current(m, i)
    {
      SameChunk(position, i);
    }
    SameChunk(position, position);
  }

  lemma FetchSpan(m: Memory, a: nat, b: nat, position: nat, bound: nat, end: nat)
    requires Span(m, a, b, position) && m.stale == Fetching && position < end
    requires StaleRun(m.sh, m.chunks, position, bound, end)
    ensures position <= Min(end, m.sh.size) ==> Span(AfterFetch(m, position, end), a, end, end)
  {
    RunIsStale(m, position, bound, end);
    if position <= Min(end, m.sh.size) {
      FetchKeepsCoherent(m, position, end);
      forall i | 0 <= i < m.sh.storage
        ensures Current(AfterFetch(m, position, end), i) <==> Current(m, i) || position <= i < end
      {
        AfterFetchCurrent(m, position, end, i);
      }
    }
  }

  predicate AllStale(chunks: seq<bool>) { forall c :: 0 <= c < |chunks| ==> !chunks[c] }

  /** The chunk at this offset is still stale. */
  predicate LeftStale(m: Memory, position: nat) {
    Sized(m) && position % CHUNK == 0 && position < m.sh.storage && !m.chunks[position / CHUNK]
  }

  lemma StillStale(m: Memory, position: nat)
    requires LeftStale(m, position) && m.stale == Fetching && Coherent(m)
    ensures SomeStale(m.(stale := Invalidated)) && Coherent(m.(stale := Invalidated))
  {
    var n := m.(stale := Invalidated);
    ChunkStartsInData(m.sh, position / CHUNK);
    assert !Current(n, position);
    forall i | 0 <= i < m.sh.storage
      ensures ProtOk(n, i)
      ensures i < m.sh.size ==> ValueOk(n, i)
    {
      assert ProtOk(m, i) && Current(n, i) == Current(m, i);
      assert i < m.sh.size ==> ValueOk(m, i);
    }
  }

  lemma FailsHere(sh: Shape, at: nat)
    requires at % CHUNK == 0 && at < sh.storage
    ensures at == at / CHUNK * CHUNK && at / CHUNK < Chunks(sh.storage)
  {
  }

  /** What a flush leaves after a fetch has failed before it: every byte was sent, the
      stale ones over what the device wrote. */
  ghost predicate SentOver(m: Memory) {
    && Sized(m) && SomeStale(m) && Clean(m)
    && (forall i :: 0 <= i < m.sh.size ==> m.server[i] == m.client[i])
    && (forall i :: 0 <= i < m.sh.size ==>
          (m.server[i] != m.truth[i] <==> !Current(m, i) && m.client[i] != m.truth[i]))
  }

  lemma StaleIsSent(m: Memory, n: Memory)
    requires Coherent(m) && m.fullDirty && SomeStale(m) && FlushedTo(m, n)
    ensures SentOver(n)
  {
    forall i | 0 <= i < m.sh.size
      ensures n.server[i] == n.client[i]
      ensures n.server[i] != n.truth[i] <==> !Current(n, i) && n.client[i] != n.truth[i]
      ensures Current(n, i) == Current(m, i)
    {
      OutstandingIsDirty(m, i);
      FlushLosesByte(m, n, i);
    }
  }

  lemma RoundUpCovers(sh: Shape)
    requires WellShaped(sh)
    ensures RoundUp(sh.size) >= sh.storage
  {
    var c := (sh.size + CHUNK - 1) / CHUNK;
    if c * CHUNK < sh.storage {
      ChunkStartsInData(sh, c);
    }
  }

  lemma SpanCovers(m: Memory, a: nat, b: nat, position: nat, from: nat, to: nat)
    requires Span(m, a, b, position) && a == ChunkStart(from) && from <= to <= m.sh.size
    requires position >= Min(RoundUp(to), m.sh.storage) && m.stale != Fresh
    ensures forall i :: from <= i < to ==> Current(m, i)
    ensures from == 0 && to == m.sh.size ==> AllFresh(m.chunks)
  {
    assert RoundUp(to) >= to && a <= from;
    if from == 0 && to == m.sh.size {
      RoundUpCovers(m.sh);
      forall c | 0 <= c < |m.chunks|
        ensures m.chunks[c]
      {
        assert c * CHUNK < m.sh.storage && Current(m, c * CHUNK);
      }
    }
  }

  lemma OutstandingFits(m: Memory)
    requires Coherent(m)
    ensures forall k :: 0 <= k < |Outstanding(m)| ==> RangeOk(m.sh, Outstanding(m)[k])
  {
  }

  lemma CleanEverywhere(m: Memory)
    requires Coherent(m) && !m.flushDue
    ensures Clean(m) && forall i :: 0 <= i < m.sh.size ==> m.server[i] == m.truth[i]
  {
    forall i | 0 <= i < m.sh.size
      ensures m.server[i] == m.truth[i]
    {
      CleanServer(m, i);
    }
  }

  /** The device writes the data while nothing is dirty. */
  lemma DeviceWriteKeepsCoherent(m: Memory, result: seq<Byte>)
    requires Coherent(m) && Visible(m) && Clean(m) && m.work && |result| == m.sh.size
    ensures var n := m.(server := result + m.server[m.sh.size..], truth := result + m.truth[m.sh.size..], unseen := true);
            Coherent(n) && Visible(n)
  {
    var n := m.(server := result + m.server[m.sh.size..], truth := result + m.truth[m.sh.size..], unseen := true);
    forall i | 0 <= i < m.sh.storage
      ensures ProtOk(n, i) && Current(n, i) == Current(m, i)
      ensures i < m.sh.size ==> ValueOk(n, i)
    {
      assert ProtOk(m, i);
    }
  }

  /** fetch_readahead after the k-th fetch of a front-to-back scan. */
  function Window(k: nat): nat {
    if k == 0 then 0 else if k == 1 then CHUNK else 2 * Window(k - 1)
  }

  lemma Windows()
    ensures Window(1) == CHUNK && Window(2) == 2 * CHUNK && Window(3) == 4 * CHUNK && Window(4) == 8 * CHUNK
    ensures Window(5) == 16 * CHUNK && Window(6) == 32 * CHUNK && Window(7) == READAHEAD_CAP
  {
    assert Window(2) == 2 * Window(1) && Window(3) == 2 * Window(2) && Window(4) == 2 * Window(3);
    assert Window(5) == 2 * Window(4) && Window(6) == 2 * Window(5) && Window(7) == 2 * Window(6);
  }

  /** After `k` fetches the chunks below `seqNext` are fresh and no others are. */
  ghost predicate ScanAt(sh: Shape, chunks: seq<bool>, seqNext: nat, readahead: nat, k: nat) {
    && k <= 8 && seqNext <= sh.storage
    && (forall c :: 0 <= c < |chunks| ==> (chunks[c] <==> c * CHUNK < seqNext))
    && (k == 0 <==> seqNext == 0)
    && (seqNext < sh.storage ==> seqNext % CHUNK == 0 && k <= 7 && (k > 0 ==> readahead == Window(k)))
  }

  /** The state a demand fetch for byte `i` leaves. */
  ghost predicate Fetched(sh: Shape, chunks: seq<bool>, seqNext: nat, readahead: nat, i: nat,
                          chunks': seq<bool>, end: nat, readahead': nat) {
    && StaleRun(sh, chunks, ChunkStart(i), FetchLimit(ChunkStart(i), seqNext, readahead, sh.storage), end)
    && chunks' == Freshen(chunks, ChunkStart(i), end)
    && readahead' == NextReadahead(ChunkStart(i), seqNext, readahead)
  }

  /** In a scan the first stale byte is where the last fetch ended. */
  lemma NextStale(sh: Shape, chunks: seq<bool>, seqNext: nat, readahead: nat, k: nat, i: nat)
    requires |chunks| == Chunks(sh.storage) && ScanAt(sh, chunks, seqNext, readahead, k)
    requires i < sh.storage && !chunks[i / CHUNK] && (i > 0 ==> ChunkStart(i - 1) < seqNext)
    ensures ChunkStart(i) == seqNext < sh.storage && k <= 7
  {
    ChunkStartBelow(i);
    var c := i / CHUNK;
    assert seqNext <= c * CHUNK;
    var n := seqNext / CHUNK;
    assert seqNext == n * CHUNK;
    if n < c {
      ChunkStartBelow(i - 1);
    }
  }

  lemma ScanWindow(seqNext: nat, readahead: nat, k: nat)
    requires k <= 7 && (k == 0 <==> seqNext == 0) && (k > 0 ==> readahead == Window(k))
    ensures k < 7 ==> NextReadahead(seqNext, seqNext, readahead) == Window(k + 1)
    ensures k < 7 ==> !(Sequential(seqNext, seqNext, readahead) && readahead >= READAHEAD_CAP)
    ensures k == 7 ==> Sequential(seqNext, seqNext, readahead) && readahead >= READAHEAD_CAP
    ensures k < 7 ==> Window(k + 1) % CHUNK == 0
  {
    Windows();
  }

  /** Each fetch of a scan doubles the window, and the eighth takes the rest. */
  lemma ScanStep(sh: Shape, chunks: seq<bool>, seqNext: nat, readahead: nat, k: nat,
                 chunks': seq<bool>, end: nat, readahead': nat)
    requires |chunks| == Chunks(sh.storage) && ScanAt(sh, chunks, seqNext, readahead, k) && seqNext < sh.storage
    requires StaleRun(sh, chunks, seqNext, FetchLimit(seqNext, seqNext, readahead, sh.storage), end) && seqNext < end
    requires chunks' == Freshen(chunks, seqNext, end) && readahead' == NextReadahead(seqNext, seqNext, readahead)
    ensures ScanAt(sh, chunks', end, readahead', k + 1)
  {
    ScanWindow(seqNext, readahead, k);
  }

  /** A fetch for a byte that is not fresh reaches beyond its chunk's start. */
  lemma RunReaches(sh: Shape, chunks: seq<bool>, i: nat, seqNext: nat, readahead: nat, end: nat)
    requires |chunks| == Chunks(sh.storage) && i < sh.storage && !chunks[i / CHUNK]
    requires StaleRun(sh, chunks, ChunkStart(i), FetchLimit(ChunkStart(i), seqNext, readahead, sh.storage), end)
    ensures ChunkStart(i) < end
  {
    LimitAhead(i, seqNext, readahead, sh.storage);
  }

  /** A byte that is not fresh in a scan: one more fetch, from where the last ended. */
  lemma ScanMiss(sh: Shape, chunks: seq<bool>, seqNext: nat, readahead: nat, k: nat, i: nat,
                 chunks': seq<bool>, end: nat, readahead': nat)
    requires |chunks| == Chunks(sh.storage) && ScanAt(sh, chunks, seqNext, readahead, k)
    requires i < sh.storage && !chunks[i / CHUNK] && (i > 0 ==> ChunkStart(i - 1) < seqNext)
    requires Fetched(sh, chunks, seqNext, readahead, i, chunks', end, readahead')
    ensures ScanAt(sh, chunks', end, readahead', k + 1) && ChunkStart(i) < end
  {
    RunReaches(sh, chunks, i, seqNext, readahead, end);
    NextStale(sh, chunks, seqNext, readahead, k, i);
    ScanStep(sh, chunks, seqNext, readahead, k, chunks', end, readahead');
  }

  lemma ScanHit(sh: Shape, chunks: seq<bool>, seqNext: nat, readahead: nat, k: nat, i: nat)
    requires |chunks| == Chunks(sh.storage) && ScanAt(sh, chunks, seqNext, readahead, k)
    requires i < sh.storage && (AllFresh(chunks) || chunks[i / CHUNK])
    ensures ChunkStart(i) < seqNext
  {
    LimitAhead(i, seqNext, readahead, sh.storage);
    assert chunks[i / CHUNK];
  }

  lemma WorkKeepsCoherent(m: Memory)
    requires Coherent(m) && Visible(m)
    ensures Coherent(m.(work := true)) && Visible(m.(work := true))
  {
    var n := m.(work := true);
    forall i | 0 <= i < m.sh.storage
      ensures ProtOk(n, i) && Current(n, i) == Current(m, i)
      ensures i < m.sh.size ==> ValueOk(n, i)
    {
      assert ProtOk(m, i);
      assert i < m.sh.size ==> ValueOk(m, i);
    }
  }

  lemma EpochKeepsCoherent(m: Memory)
    requires Coherent(m) && Visible(m) && Clean(m)
    ensures Coherent(m.(flushDue := false)) && Visible(m.(flushDue := false))
  {
    var n := m.(flushDue := false);
    forall i | 0 <= i < m.sh.storage
      ensures ProtOk(n, i) && Current(n, i) == Current(m, i)
      ensures i < m.sh.size ==> ValueOk(n, i)
    {
      assert ProtOk(m, i);
      assert i < m.sh.size ==> ValueOk(m, i);
    }
  }

  // ----- What is sent -----

  /** Any address but 0; only offsets matter. */
  const BACKING: nat := 1

  /** The allocation as the sender knows it, mapped at offset 0. */
  function Registered(sh: Shape): Sending.Registry { map[0 := Sending.Allocation(0, 0, sh.size, BACKING)] }

  function HostSide(ranges: seq<Range>): seq<Sending.Range> {
    seq(|ranges|, k requires 0 <= k < |ranges| => Sending.Range(0, ranges[k].start, ranges[k].end))
  }

  lemma WantedHere(sh: Shape, ranges: seq<Range>, i: nat)
    ensures Sending.Wanted(Registered(sh), HostSide(ranges), 0, i) <==> i < sh.size && Queued(ranges, i)
  {
    var rs := HostSide(ranges);
    if Queued(ranges, i) {
      var k :| 0 <= k < |ranges| && Within(ranges[k], i);
      assert Sending.Contains(rs[k], 0, i);
    }
    if Sending.InUnion(rs, 0, i) {
      var k :| 0 <= k < |rs| && Sending.Contains(rs[k], 0, i);
      assert Within(ranges[k], i);
    }
  }

  lemma LandsInData(sh: Shape, item: Sending.Item)
    requires Sending.Lands(Registered(sh), item)
    ensures item.alloc == 0 && item.dst == BACKING + item.source && item.source + item.bytes <= sh.size
  {
  }

  lemma OneMoreItem(items: seq<Sending.Item>, n: nat, i: nat)
    requires n < |items| && items[n].alloc == 0
    ensures Sending.Copies(items[..n + 1], 0, i) ==
            Sending.Copies(items[..n], 0, i) + if items[n].source <= i < items[n].source + items[n].bytes then 1 else 0
  {
    assert items[..n + 1][..n] == items[..n];
  }

  class Allocation {
    const sh: Shape
    var client: seq<Byte>
    var server: seq<Byte>
    var prot: seq<Protection>
    var stale: Stale
    var chunks: seq<bool>
    var seqNext: nat
    var readahead: nat
    var queue: seq<Range>
    var fullDirty: bool
    var required: nat
    var flushed: nat
    var epoch: nat
    var work: bool
    ghost var truth: seq<Byte>
    ghost var unseen: bool
    /** What a flush has taken from the queue and not yet released. */
    ghost var held: seq<Range>
    ghost var heldFull: bool
    /** How many demand fetches have been made. */
    ghost var fetches: nat

    ghost function View(): Memory
      reads this
    {
      Memory(sh, client, server, truth, prot, stale, chunks, queue + held, fullDirty || heldFull,
             flushed < required, work, unseen)
    }

    ghost predicate Valid()
      reads this
    {
      && Coherent(View()) && Visible(View()) && Steady(View())
      && held == [] && !heldFull && flushed <= epoch && required <= epoch
    }

    predicate NothingDirty()
      reads this
    {
      queue == [] && !fullDirty
    }

    /** lupine_enable_dirty_tracking_locked on fresh storage whose backing holds the
        same bytes. */
    constructor (sh: Shape, bytes: seq<Byte>)
      requires WellShaped(sh) && |bytes| == sh.storage
      ensures Valid() && this.sh == sh && truth == bytes && !unseen && !work && NothingDirty()
      ensures client == bytes && flushed >= required
    {
      this.sh := sh;
      client, server, truth := bytes, bytes, bytes;
      prot := seq(sh.storage, _ => Readable);
      stale := Fresh;
      chunks := seq(Chunks(sh.storage), _ => false);
      seqNext, readahead := 0, 0;
      queue, fullDirty := [], false;
      required, flushed, epoch := 0, 0, 0;
      work, unseen := false, false;
      held, heldFull, fetches := [], false, 0;
    }

    // ----- Demand fetch -----

    /** lupine_fetch_stale_range: the server bytes land in the client copy, clipped
        to the data. */
    method FetchStaleRange(offset: nat, bytes: nat)
      requires Sized(View()) && offset < sh.size && offset + bytes <= sh.storage
      modifies this`client
      ensures client == Splice(old(client), server, offset, Min(offset + bytes, sh.size))
    {
      var end := Min(offset + bytes, sh.size);
      client := Splice(client, server, offset, end);
    }

    /** Fetch a run of whole chunks and set their flags. */
    method FetchChunks(start: nat, end: nat)
      requires Sized(View()) && WholeChunks(sh, start, end) && start < end
      modifies this`client, this`chunks
      ensures start <= Min(end, sh.size) && View() == AfterFetch(old(View()), start, end)
    {
      assert start == start / CHUNK * CHUNK;
      ChunkStartsInData(sh, start / CHUNK);
      FetchStaleRange(start, end - start);
      chunks := Freshen(chunks, start, end);
    }

    /** lupine_demand_fetch_run: fetch the stale run at the fault, widened by
        readahead and cut at the first fresh chunk. No fresh chunk is fetched; if
        the faulting chunk is fresh itself, nothing is. */
    method DemandFetchRun(fault: nat) returns (start: nat, end: nat)
      requires Sized(View()) && fault < sh.storage
      modifies this`client, this`chunks, this`seqNext, this`readahead, this`fetches
      ensures start == ChunkStart(fault) <= fault
      ensures StaleRun(sh, old(chunks), start, FetchLimit(start, old(seqNext), old(readahead), sh.storage), end)
      ensures readahead == NextReadahead(start, old(seqNext), old(readahead))
      ensures if old(chunks)[fault / CHUNK]
              then end == start && seqNext == start + CHUNK && fetches == old(fetches) && View() == old(View())
              else fault < end == seqNext && fetches == old(fetches) + 1
                   && start <= Min(end, sh.size) && View() == AfterFetch(old(View()), start, end)
    {
      start := ChunkStart(fault);
      var limit := FetchLimit(start, seqNext, readahead, sh.storage);
      LimitAhead(fault, seqNext, readahead, sh.storage);
      readahead := NextReadahead(start, seqNext, readahead);
      end := RunEnd(sh, chunks, start, limit);
      if end <= start {
        seqNext := start + CHUNK;
        return;
      }
      FaultInRun(sh, fault, end);
      FetchChunks(start, end);
      seqNext := end;
      fetches := fetches + 1;
    }

    /** lupine_finish_demand_fetch. */
    method FinishDemandFetch(a: nat, b: nat)
      requires Sized(View()) && a <= b <= sh.storage
      modifies this`prot, this`stale
      ensures View() == AfterFinish(old(View()), a, b)
    {
      var allFresh := true;
      for c := 0 to |chunks|
        invariant allFresh <==> forall k :: 0 <= k < c ==> chunks[k]
      {
        if !chunks[c] {
          allFresh := false;
          break;
        }
      }
      prot := Protect(prot, a, b, Readable);
      stale := if allFresh then Fresh else Invalidated;
    }

    /** The state after a demand fetch that served a fault at `i`. */
    twostate predicate FetchedFor(i: nat)
      reads this
    {
      && |chunks| == |old(chunks)|
      && Fetched(sh, old(chunks), old(seqNext), old(readahead), i, chunks, seqNext, readahead)
      && stale == (if AllFresh(chunks) then Fresh else Invalidated)
      && fetches == old(fetches) + 1
    }

    twostate predicate SameFetchState()
      reads this
    {
      && chunks == old(chunks) && seqNext == old(seqNext) && readahead == old(readahead)
      && fetches == old(fetches) && stale == old(stale)
    }

    ghost predicate Usable()
      reads this
    {
      Coherent(View()) && Visible(View()) && Steady(View()) && flushed <= epoch && required <= epoch
    }

    /** The handler's stale branch, whatever the memory holds. */
    method FetchFault(i: nat) returns (ghost start: nat, ghost end: nat)
      requires Sized(View()) && i < sh.storage && !Current(View(), i)
      modifies this`client, this`chunks, this`seqNext, this`readahead, this`fetches, this`prot, this`stale
      ensures ChunkStart(i) == start <= i < end == seqNext && start <= Min(end, sh.size) && FetchedFor(i)
      ensures StaleRun(sh, old(chunks), start, FetchLimit(start, old(seqNext), old(readahead), sh.storage), end)
      ensures View() == AfterDemandFetch(old(View()), start, end)
    {
      stale := Fetching;
      var from, to := DemandFetchRun(i);
      FinishDemandFetch(from, to);
      start, end := from, to;
    }

    /** The same on a coherent memory: afterwards the faulting byte is current. */
    method DemandFetch(i: nat)
      requires Usable() && !unseen && i < sh.storage && !Current(View(), i)
      modifies this`client, this`chunks, this`seqNext, this`readahead, this`fetches, this`prot, this`stale
      ensures Usable() && prot[i] == Readable && FetchedFor(i)
    {
      var start, end := FetchFault(i);
      DemandFetchKeepsCoherent(old(View()), start, FetchLimit(start, old(seqNext), old(readahead), sh.storage), end);
    }

    /** A host load, also of a memory that is no longer coherent: a hidden byte is
        stale and faults into the handler's stale branch. */
    method Load(i: nat) returns (v: Byte)
      requires Sized(View()) && i < sh.size && (prot[i] == Hidden <==> !Current(View(), i))
      modifies this`client, this`chunks, this`seqNext, this`readahead, this`fetches, this`prot, this`stale
      ensures v == Sees(old(View()), i)
    {
      if prot[i] == Hidden {
        var _, _ := FetchFault(i);
      }
      v := client[i];
    }

    /** lupine_queue_dirty_host_range, where `full` says that the shared queue has
        no slot left. */
    method QueueDirtyRange(a: nat, b: nat, full: bool)
      modifies this`queue, this`fullDirty, this`epoch, this`required
      ensures queue == if full then old(queue) else old(queue) + [Range(a, b)]
      ensures fullDirty == (old(fullDirty) || full)
      ensures epoch == required == old(epoch) + 1
    {
      if full {
        fullDirty := true;
      } else {
        queue := queue + [Range(a, b)];
      }
      epoch := epoch + 1;
      required := epoch;
    }

    /** Publish a page and make it writable. */
    method MarkRange(a: nat, b: nat, full: bool)
      requires Valid() && !unseen && RangeOk(sh, Range(a, b))
      requires forall j :: a <= j < b ==> Current(View(), j)
      modifies this`queue, this`fullDirty, this`epoch, this`required, this`prot
      ensures Valid() && fullDirty == (old(fullDirty) || full) && forall j :: a <= j < b ==> prot[j] == Writable
    {
      ghost var m := View();
      MarkKeepsCoherent(m, a, b, full);
      QueueDirtyRange(a, b, full);
      prot := Protect(prot, a, b, Writable);
      assert queue + held == if full then m.queue else m.queue + [Range(a, b)];
      assert View() == MarkDirty(m, a, b, full);
    }

    /** The handler's dirty branch. */
    method MarkPage(i: nat, full: bool)
      requires Valid() && !unseen && i < sh.storage && Current(View(), i)
      modifies this`queue, this`fullDirty, this`epoch, this`required, this`prot
      ensures Valid() && fullDirty == (old(fullDirty) || full) && prot[i] == Writable
    {
      var page := PageStart(sh, i);
      PageFits(sh, i);
      MarkRange(page, page + sh.page, full);
    }

    /** lupine_sigsegv_handler. */
    method Fault(i: nat, full: bool)
      requires Valid() && !unseen && i < sh.storage
      modifies this
      ensures Valid() && truth == old(truth) && server == old(server) && !unseen && work == old(work)
      ensures !old(Current(View(), i)) ==>
                prot[i] == Readable && FetchedFor(i) && queue == old(queue) && fullDirty == old(fullDirty)
      ensures old(Current(View(), i)) ==> prot[i] == Writable && SameFetchState()
    {
      if stale != Fresh && !chunks[i / CHUNK] {
        DemandFetch(i);
      } else {
        MarkPage(i, full);
      }
    }

    // ----- The host -----

    /** A host load: faults until the byte is readable. */
    method HostRead(i: nat, full: bool) returns (v: Byte)
      requires Valid() && !unseen && i < sh.size
      modifies this
      ensures Valid() && truth == old(truth) && !unseen && work == old(work)
      ensures v == truth[i] && queue == old(queue) && fullDirty == old(fullDirty)
      ensures old(Current(View(), i)) ==> SameFetchState()
      ensures !old(Current(View(), i)) ==> FetchedFor(i)
    {
      if prot[i] == Hidden {
        Fault(i, full);
      }
      v := client[i];
      assert ValueOk(View(), i) && ProtOk(View(), i);
    }

    /** The store itself, once the page admits it. */
    method Store(i: nat, v: Byte)
      requires Valid() && !unseen && i < sh.size && prot[i] == Writable
      modifies this`client, this`truth
      ensures Valid() && client == old(client)[i := v] && truth == old(truth)[i := v]
    {
      StoreKeepsCoherent(View(), i, v);
      client := client[i := v];
      truth := truth[i := v];
    }

    /** A host store: faults until the page admits it, at most twice. */
    method HostWrite(i: nat, v: Byte, full: bool)
      requires Valid() && !unseen && i < sh.size
      modifies this
      ensures Valid() && truth == old(truth)[i := v] && !unseen
      ensures server == old(server) && work == old(work)
    {
      while prot[i] != Writable
        invariant Valid() && truth == old(truth) && !unseen
        invariant server == old(server) && work == old(work)
        decreases if prot[i] == Hidden then 2 else if prot[i] == Readable then 1 else 0
      {
        assert ProtOk(View(), i);
        Fault(i, full);
      }
      Store(i, v);
    }

    // ----- Flushing -----

    /** Every fetch fails. */
    ghost predicate AllFail(fails: set<nat>)
      reads this`chunks
    {
      forall c :: 0 <= c < |chunks| ==> c * CHUNK in fails
    }

    /** Fetch every stale chunk from `spanStart` up to `bound`, run by run. The fetch of
        a run that begins at one of `fails` fails and ends the loop. */
    method FetchRuns(spanStart: nat, bound: nat, fails: set<nat>)
      returns (ok: bool, spanEnd: nat, ghost position: nat)
      requires Span(View(), spanStart, spanStart, spanStart) && stale == Fetching && bound <= sh.storage
      modifies this`client, this`chunks
      ensures Span(View(), spanStart, spanEnd, position)
      ensures if ok then position >= bound else LeftStale(View(), position)
      ensures fails == {} ==> ok
      ensures old(AllFail(fails)) ==> client == old(client) && chunks == old(chunks)
    {
      ok, spanEnd := true, spanStart;
      var at := spanStart;
      while at < bound && ok
        invariant Span(View(), spanStart, spanEnd, at)
        invariant !ok ==> LeftStale(View(), at) && fails != {}
        invariant old(AllFail(fails)) ==> client == old(client) && chunks == old(chunks)
        decreases bound - at, ok
      {
        if chunks[at / CHUNK] {
          SkipFresh(View(), spanStart, spanEnd, at);
          at := at + CHUNK;
        } else if at in fails {
          ok := false;
        } else {
          FailsHere(sh, at);
          var runEnd := RunEnd(sh, chunks, at, bound);
          FetchSpan(View(), spanStart, spanEnd, at, bound, runEnd);
          FetchChunks(at, runEnd);
          at, spanEnd := runEnd, runEnd;
        }
      }
      position := at;
    }

    /** lupine_make_mapped_range_fresh: every stale chunk of the range is fetched, unless
        one fetch fails. */
    method MakeRangeFresh(startOffset: nat, endOffset: nat, fails: set<nat>) returns (ok: bool)
      requires Usable() && !unseen && startOffset <= endOffset <= sh.size
      modifies this`client, this`chunks, this`prot, this`stale
      ensures ok ==> Usable() && forall i :: startOffset <= i < endOffset ==> Current(View(), i)
      ensures ok && startOffset == 0 && endOffset == sh.size ==> stale == Fresh
      ensures ok && startOffset == 0 && endOffset == sh.size && old(stale) != Fresh ==> AllFresh(chunks)
      ensures !ok ==> Coherent(View()) && stale == Invalidated && SomeStale(View())
      ensures fails == {} ==> ok
      ensures old(AllFail(fails)) ==> client == old(client) && chunks == old(chunks)
    {
      if stale == Fresh {
        return true;
      }
      StartSpan(View(), startOffset);
      stale := Fetching;
      var bound := Min(RoundUp(endOffset), sh.storage);
      var spanEnd;
      ghost var position;
      ok, spanEnd, position := FetchRuns(ChunkStart(startOffset), bound, fails);
      ghost var m := View();
      if ok {
        SpanCovers(m, ChunkStart(startOffset), spanEnd, position, startOffset, endOffset);
        FinishDemandFetch(ChunkStart(startOffset), spanEnd);
        EndSpan(m, ChunkStart(startOffset), spanEnd, position);
      } else {
        StillStale(m, position);
        stale := Invalidated;
      }
    }

    /** Protect the taken ranges against further stores. */
    method ProtectRanges(ranges: seq<Range>)
      requires Sized(View()) && forall k :: 0 <= k < |ranges| ==> RangeOk(sh, ranges[k])
      modifies this`prot
      ensures |prot| == sh.storage
      ensures forall i :: 0 <= i < sh.storage ==> prot[i] == if Queued(ranges, i) then Readable else old(prot)[i]
    {
      for n := 0 to |ranges|
        invariant |prot| == sh.storage
        invariant forall i :: 0 <= i < sh.storage ==>
                    prot[i] == if Queued(ranges[..n], i) then Readable else old(prot)[i]
      {
        prot := Protect(prot, ranges[n].start, ranges[n].end, Readable);
        assert ranges[..n + 1] == ranges[..n] + [ranges[n]];
        forall i | 0 <= i < sh.storage
          ensures Queued(ranges[..n + 1], i) <==> Queued(ranges[..n], i) || Within(ranges[n], i)
        {
          QueuedAppend(ranges[..n], ranges[n], i);
        }
      }
      assert ranges[..|ranges|] == ranges;
    }

    /** The server stores the items it receives. */
    method Receive(items: seq<Sending.Item>)
      requires Sized(View()) && forall k :: 0 <= k < |items| ==> Sending.Lands(Registered(sh), items[k])
      modifies this`server
      ensures |server| == sh.storage
      ensures forall i :: 0 <= i < sh.storage ==>
                server[i] == if Sending.Copies(items, 0, i) > 0 then client[i] else old(server)[i]
    {
      for n := 0 to |items|
        invariant |server| == sh.storage
        invariant forall i :: 0 <= i < sh.storage ==>
                    server[i] == if Sending.Copies(items[..n], 0, i) > 0 then client[i] else old(server)[i]
      {
        var at := items[n].dst - BACKING;
        LandsInData(sh, items[n]);
        server := Splice(server, client, at, at + items[n].bytes);
        forall i | 0 <= i < sh.storage
          ensures Sending.Copies(items[..n + 1], 0, i) ==
                  Sending.Copies(items[..n], 0, i) + if at <= i < at + items[n].bytes then 1 else 0
        {
          OneMoreItem(items, n, i);
        }
      }
      assert items[..|items|] == items;
    }

    /** Send the taken ranges and have them acknowledged: sorted, merged, clipped to
        the data and batched. */
    method SendRanges(ranges: seq<Range>)
      requires Sized(View()) && forall k :: 0 <= k < |ranges| ==> RangeOk(sh, ranges[k])
      modifies this`server
      ensures |server| == sh.storage
      ensures forall i :: 0 <= i < sh.storage ==>
                server[i] == if i < sh.size && Queued(ranges, i) then client[i] else old(server)[i]
    {
      var rs := HostSide(ranges);
      var lanes: bool := *;
      var ok, ms := Sending.FlushRanges(Registered(sh), rs, lanes, |rs| + 1);
      Receive(Sending.Sent(ms));
      forall i | 0 <= i < sh.storage
        ensures Sending.Wanted(Registered(sh), rs, 0, i) <==> i < sh.size && Queued(ranges, i)
      {
        WantedHere(sh, ranges, i);
      }
    }

    /** Take the queue and full_dirty; until it is released the flush holds them. */
    method TakeRanges() returns (ranges: seq<Range>, full: bool)
      requires Valid()
      modifies this`queue, this`fullDirty, this`held, this`heldFull
      ensures View() == old(View()) && queue == [] && !fullDirty
      ensures full == View().fullDirty && ranges == Outstanding(View())
    {
      ranges, full := queue, fullDirty;
      held, queue := queue, [];
      if full {
        heldFull, fullDirty := true, false;
        ranges := ranges + [Range(0, sh.storage)];
      }
      assert queue + held == old(queue) + old(held);
    }

    /** Protect and send what the flush holds, and release it. */
    method SendHeld(ranges: seq<Range>)
      requires Coherent(View()) && queue == [] && !fullDirty && ranges == Outstanding(View())
      modifies this`server, this`prot, this`held, this`heldFull
      ensures FlushedTo(old(View()), View()) && held == [] && !heldFull
    {
      OutstandingFits(View());
      ProtectRanges(ranges);
      SendRanges(ranges);
      held, heldFull := [], false;
    }

    /** `fetched` says that what full_dirty stands for is there to be sent. */
    method SendTaken(ranges: seq<Range>, ghost fetched: bool)
      requires Coherent(View()) && queue == [] && !fullDirty && ranges == Outstanding(View())
      requires if fetched then Usable() && (heldFull ==> stale == Fresh) else heldFull && SomeStale(View())
      modifies this`server, this`prot, this`held, this`heldFull
      ensures NothingDirty()
      ensures fetched ==> Valid() && Clean(View()) && forall i :: 0 <= i < sh.size ==> server[i] == truth[i]
      ensures !fetched ==> SentOver(View())
    {
      ghost var m := View();
      SendHeld(ranges);
      if fetched {
        FlushKeepsCoherent(m, View());
      } else {
        StaleIsSent(m, View());
      }
    }

    /** lupine_flush_dirty_host_pages_to_route for this allocation. It does not look at
        the result of the fetch. */
    method FlushRoute(fails: set<nat>) returns (ghost ok: bool)
      requires Valid()
      modifies this`client, this`server, this`prot, this`stale, this`chunks, this`queue, this`fullDirty,
               this`held, this`heldFull
      ensures NothingDirty() && (fails == {} || !old(fullDirty) || old(stale) == Fresh ==> ok)
      ensures ok ==> Valid() && Clean(View()) && forall i :: 0 <= i < sh.size ==> server[i] == truth[i]
      ensures ok && old(fullDirty) && old(stale) != Fresh ==> AllFresh(chunks)
      ensures !ok ==> SentOver(View())
      ensures old(AllFail(fails)) ==> client == old(client) && chunks == old(chunks)
    {
      var ranges, full := TakeRanges();
      ok := true;
      if full && stale != Fresh {
        var fetched := MakeRangeFresh(0, sh.size, fails);
        ok := fetched;
      }
      SendTaken(ranges, ok);
    }

    /** lupine_flush_dirty_host_pages_to_server. */
    method FlushToServer()
      requires Valid()
      modifies this`client, this`server, this`prot, this`stale, this`chunks, this`queue, this`fullDirty,
               this`held, this`heldFull, this`flushed
      ensures Valid() && flushed == epoch && Clean(View())
      ensures forall i :: 0 <= i < sh.size ==> server[i] == truth[i]
    {
      var flushEpoch := epoch;
      ghost var _ := FlushRoute({});
      EpochKeepsCoherent(View());
      flushed := flushEpoch;
    }

    method NoteWork()
      requires Valid()
      modifies this`work
      ensures Valid() && work
    {
      WorkKeepsCoherent(View());
      work := true;
    }

    /** lupine_prepare_rpc: when it returns the server has every host write. */
    method PrepareRpc()
      requires Valid()
      modifies this
      ensures Valid() && truth == old(truth) && unseen == old(unseen) && work
      ensures Clean(View()) && forall i :: 0 <= i < sh.size ==> server[i] == truth[i]
      ensures old(flushed) >= old(required) ==> client == old(client)
    {
      NoteWork();
      while flushed < required
        invariant Valid() && truth == old(truth) && unseen == old(unseen) && work
        invariant old(flushed) >= old(required) ==> client == old(client) && flushed >= required
        decreases if flushed < required then 1 else 0
      {
        FlushToServer();
      }
      CleanEverywhere(View());
    }

    // ----- The device -----

    /** What both invalidations do: forget every fetched chunk and hide the storage. */
    method Invalidate()
      requires Sized(View())
      modifies this`stale, this`chunks, this`seqNext, this`readahead, this`prot, this`unseen
      ensures View() == Invalidation(old(View())) && seqNext == 0 && readahead == 0
    {
      ghost var n := Invalidation(View());
      stale := Invalidating;
      chunks := seq(|chunks|, _ => false);
      seqNext, readahead := 0, 0;
      prot := Protect(prot, 0, sh.storage, Hidden);
      stale := Invalidated;
      unseen := false;
      assert chunks == n.chunks && prot == n.prot;
    }

    /** A kernel that leaves `result` in the data. `passed` says that the allocation
        was a launch parameter, which invalidates it at once; one reached through
        nested pointers waits for the next synchronization. */
    method Launch(result: seq<Byte>, passed: bool) returns (seen: seq<Byte>)
      requires Valid() && |result| == sh.size
      modifies this
      ensures Valid() && seen == old(truth)[..sh.size]
      ensures |truth| == sh.storage && truth[..sh.size] == result && unseen == !passed && NothingDirty()
      ensures old(flushed) >= old(required) ==> client == old(client)
      ensures passed ==> stale == Invalidated && seqNext == 0 && readahead == 0 && AllStale(chunks)
    {
      PrepareRpc();
      seen := server[..sh.size];
      DeviceWriteKeepsCoherent(View(), result);
      server, truth := result + server[sh.size..], result + truth[sh.size..];
      unseen := true;
      if passed {
        InvalidationKeepsCoherent(View());
        Invalidate();
      }
    }

    /** lupine_sync_mapped_device_to_host. A cuEventQuery that is answered locally
        makes this call and nothing else. */
    method SyncMappedDeviceToHost(capturing: bool)
      requires Valid()
      modifies this`work, this`stale, this`chunks, this`seqNext, this`readahead, this`prot, this`unseen
      ensures View() == Synced(old(View()), capturing)
      ensures !capturing ==> !unseen && !work
      ensures !(old(work) && !capturing && old(HoldsHostWrites(View()))) ==> Valid()
    {
      ghost var m := View();
      if capturing || !work {
        return;
      }
      work := false;
      Invalidate();
      if !HoldsHostWrites(m) {
        QuietInvalidation(m, m);
      }
    }

    /** A synchronizing call: the request flushes first, the sync follows it. */
    method Synchronize()
      requires Valid()
      modifies this
      ensures Valid() && truth == old(truth) && !unseen && !work && NothingDirty()
    {
      PrepareRpc();
      SyncMappedDeviceToHost(false);
    }

    // ----- Sequential scans -----

    /** Reading a fully stale allocation of any size front to back needs at most
        eight demand fetches, and every byte read is the promised one. */
    method ScanAll() returns (bytes: seq<Byte>)
      requires Valid() && !unseen && stale == Invalidated && seqNext == 0
      requires forall c :: 0 <= c < |chunks| ==> !chunks[c]
      modifies this
      ensures Valid() && truth == old(truth) && bytes == truth[..sh.size]
      ensures fetches <= old(fetches) + 8
    {
      bytes := [];
      for i := 0 to sh.size
        invariant Valid() && !unseen && truth == old(truth) && bytes == truth[..i]
        invariant old(fetches) <= fetches && ScanAt(sh, chunks, seqNext, readahead, fetches - old(fetches))
        invariant stale == Fresh ==> AllFresh(chunks)
        invariant i > 0 ==> ChunkStart(i - 1) < seqNext
      {
        ghost var k := fetches - old(fetches);
        var v := ScanByte(i, k);
        bytes := bytes + [v];
      }
    }

    /** One byte of a scan that has made `k` fetches. */
    method ScanByte(i: nat, ghost k: nat) returns (v: Byte)
      requires Valid() && !unseen && i < sh.size && ScanAt(sh, chunks, seqNext, readahead, k)
      requires (stale == Fresh ==> AllFresh(chunks)) && (i > 0 ==> ChunkStart(i - 1) < seqNext)
      modifies this
      ensures Valid() && !unseen && truth == old(truth) && v == truth[i]
      ensures old(fetches) <= fetches && ScanAt(sh, chunks, seqNext, readahead, k + fetches - old(fetches))
      ensures (stale == Fresh ==> AllFresh(chunks)) && ChunkStart(i) < seqNext
    {
      ghost var wasStale := !Current(View(), i);
      v := HostRead(i, false);
      if wasStale {
        ScanMiss(sh, old(chunks), old(seqNext), old(readahead), k, i, chunks, seqNext, readahead);
      } else {
        ScanHit(sh, chunks, seqNext, readahead, k, i);
      }
    }
  }
}
