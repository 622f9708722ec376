/** How a flush turns the ranges it has collected into messages: sort, merge per
    allocation, clip to the caller's window, and send in batches or in bulk
    (cuda_client_memcpy.cpp). Addresses are host addresses. */
module HostRanges {

  /** An allocation as the sender sees it. */
  datatype Allocation = Allocation(hostBase: nat, dataOffset: nat, userSize: nat, backing: nat)

  datatype Range = Range(alloc: nat, start: nat, end: nat)

  type Registry = map<nat, Allocation>

  /** Live allocations are mapped at different addresses. */
  predicate Mapped(reg: Registry) {
    forall a, b :: a in reg && b in reg && reg[a].hostBase == reg[b].hostBase ==> a == b
  }

  predicate Known(reg: Registry, rs: seq<Range>) {
    forall i :: 0 <= i < |rs| ==> Fits(reg, rs[i])
  }

  predicate Fits(reg: Registry, r: Range) {
    r.alloc in reg && r.start < r.end && reg[r.alloc].hostBase <= r.start
  }

  /** The byte at host address `x` of allocation `a` is in one of the ranges. */
  ghost predicate InUnion(rs: seq<Range>, a: nat, x: nat) {
    exists i :: 0 <= i < |rs| && Contains(rs[i], a, x)
  }

  predicate Contains(r: Range, a: nat, x: nat) {
    r.alloc == a && r.start <= x < r.end
  }

  // ----- Sorting -----

  /** The order of the comparator: allocation base, then start, then end. */
  predicate Before(reg: Registry, a: Range, b: Range)
    requires a.alloc in reg && b.alloc in reg
  {
    if a.alloc != b.alloc then reg[a.alloc].hostBase <= reg[b.alloc].hostBase
    else a.start < b.start || (a.start == b.start && a.end <= b.end)
  }

  ghost predicate Sorted(reg: Registry, rs: seq<Range>)
    requires Known(reg, rs)
  {
    forall i, j :: 0 <= i < j < |rs| ==> Before(reg, rs[i], rs[j])
  }

  lemma BeforeTotal(reg: Registry, a: Range, b: Range)
    requires Mapped(reg) && a.alloc in reg && b.alloc in reg
    ensures Before(reg, a, b) || Before(reg, b, a)
  {
  }

  lemma BeforeTransitive(reg: Registry, a: Range, b: Range, c: Range)
    requires Mapped(reg) && a.alloc in reg && b.alloc in reg && c.alloc in reg
    requires Before(reg, a, b) && Before(reg, b, c)
    ensures Before(reg, a, c)
  {
  }

  /** std::sort by the comparator. */
  method SortRanges(reg: Registry, rs: seq<Range>) returns (sorted: seq<Range>)
    requires Mapped(reg) && Known(reg, rs)
    ensures multiset(sorted) == multiset(rs)
    ensures Known(reg, sorted) && Sorted(reg, sorted)
  {
    sorted := [];
    for n := 0 to |rs|
      invariant multiset(sorted) == multiset(rs[..n])
      invariant Known(reg, sorted) && Sorted(reg, sorted)
    {
      sorted := Insert(reg, sorted, rs[n]);
      assert rs[..n + 1] == rs[..n] + [rs[n]];
    }
    assert rs[..|rs|] == rs;
  }

  method Insert(reg: Registry, rs: seq<Range>, r: Range) returns (out: seq<Range>)
    requires Mapped(reg) && Known(reg, rs) && Sorted(reg, rs) && Fits(reg, r)
    ensures multiset(out) == multiset(rs) + multiset{r}
    ensures Known(reg, out) && Sorted(reg, out)
  {
    var k := |rs|;
    while k > 0 && !Before(reg, rs[k - 1], r)
      invariant 0 <= k <= |rs|
      invariant k < |rs| ==> Before(reg, r, rs[k])
    {
      BeforeTotal(reg, rs[k - 1], r);
      k := k - 1;
    }
    InsertSorted(reg, rs, r, k);
    out := rs[..k] + [r] + rs[k..];
    assert rs == rs[..k] + rs[k..];
  }

  lemma InsertSorted(reg: Registry, rs: seq<Range>, r: Range, k: nat)
    requires Mapped(reg) && Known(reg, rs) && Sorted(reg, rs) && Fits(reg, r) && k <= |rs|
    requires k < |rs| ==> Before(reg, r, rs[k])
    requires k > 0 ==> Before(reg, rs[k - 1], r)
    ensures Known(reg, rs[..k] + [r] + rs[k..]) && Sorted(reg, rs[..k] + [r] + rs[k..])
  {
    var out := rs[..k] + [r] + rs[k..];
    forall i | 0 <= i < |out|
      ensures Fits(reg, out[i])
      ensures i < k ==> Before(reg, out[i], r)
      ensures k < i ==> Before(reg, r, out[i])
    {
      if i < k {
        assert Fits(reg, rs[i]);
        if i < k - 1 { BeforeTransitive(reg, rs[i], rs[k - 1], r); }
      } else if i > k {
        assert Fits(reg, rs[i - 1]);
        if i - 1 > k { BeforeTransitive(reg, r, rs[k], rs[i - 1]); }
      }
    }
  }

  lemma SameRanges(rs: seq<Range>, ss: seq<Range>, a: nat, x: nat)
    requires multiset(rs) == multiset(ss)
    ensures InUnion(rs, a, x) == InUnion(ss, a, x)
  {
    if InUnion(rs, a, x) {
      var i :| 0 <= i < |rs| && Contains(rs[i], a, x);
      assert rs[i] in multiset(ss);
      assert rs[i] in ss;
    }
    if InUnion(ss, a, x) {
      var i :| 0 <= i < |ss| && Contains(ss[i], a, x);
      assert ss[i] in multiset(rs);
      assert ss[i] in rs;
    }
  }

  // ----- Merging -----

  /** Within each allocation every range ends strictly before the next begins. */
  ghost predicate Gapped(reg: Registry, rs: seq<Range>)
    requires Known(reg, rs)
  {
    forall i, j :: 0 <= i < j < |rs| ==> Apart(reg, rs[i], rs[j])
  }

  predicate Apart(reg: Registry, a: Range, b: Range)
    requires a.alloc in reg && b.alloc in reg
  {
    if a.alloc == b.alloc then a.end < b.start else reg[a.alloc].hostBase <= reg[b.alloc].hostBase
  }

  /** A merged range begins no later than every range still to come. */
  predicate StartsBy(reg: Registry, m: Range, r: Range)
    requires m.alloc in reg && r.alloc in reg
  {
    if m.alloc == r.alloc then m.start <= r.start else reg[m.alloc].hostBase <= reg[r.alloc].hostBase
  }

  /** One turn of the merge loop. */
  function Absorb(merged: seq<Range>, r: Range): seq<Range> {
    if |merged| == 0 || merged[|merged| - 1].alloc != r.alloc || merged[|merged| - 1].end < r.start then
      merged + [r]
    else
      var last := merged[|merged| - 1];
      merged[..|merged| - 1] + [last.(end := if last.end > r.end then last.end else r.end)]
  }

  lemma AbsorbUnion(merged: seq<Range>, r: Range, a: nat, x: nat)
    requires |merged| > 0 ==> StartsBefore(merged[|merged| - 1], r)
    ensures InUnion(Absorb(merged, r), a, x) <==> InUnion(merged, a, x) || Contains(r, a, x)
  {
    var out := Absorb(merged, r);
    var n := |out| - 1;
    assert forall i :: 0 <= i < n ==> out[i] == merged[i];
    if InUnion(merged, a, x) {
      var i :| 0 <= i < |merged| && Contains(merged[i], a, x);
      assert Contains(out[i], a, x);
    }
    if Contains(r, a, x) {
      assert Contains(out[n], a, x);
    }
  }

  predicate StartsBefore(m: Range, r: Range) {
    m.alloc == r.alloc ==> m.start <= r.start && m.start < m.end
  }

  lemma PrefixUnion(rs: seq<Range>, n: nat, a: nat, x: nat)
    requires n < |rs|
    ensures InUnion(rs[..n + 1], a, x) <==> InUnion(rs[..n], a, x) || Contains(rs[n], a, x)
  {
    if InUnion(rs[..n], a, x) {
      var i :| 0 <= i < n && Contains(rs[..n][i], a, x);
      assert Contains(rs[..n + 1][i], a, x);
    }
    if Contains(rs[n], a, x) {
      assert Contains(rs[..n + 1][n], a, x);
    }
    if InUnion(rs[..n + 1], a, x) {
      var i :| 0 <= i < n + 1 && Contains(rs[..n + 1][i], a, x);
      assert i < n ==> Contains(rs[..n][i], a, x);
    }
  }

  lemma AbsorbKeeps(reg: Registry, merged: seq<Range>, r: Range)
    requires Mapped(reg) && Known(reg, merged) && Gapped(reg, merged) && Fits(reg, r)
    requires forall i :: 0 <= i < |merged| ==> StartsBy(reg, merged[i], r)
    ensures Known(reg, Absorb(merged, r)) && Gapped(reg, Absorb(merged, r))
  {
    var out := Absorb(merged, r);
    var n := |out| - 1;
    assert forall i :: 0 <= i < n ==> out[i] == merged[i];
    forall i | 0 <= i < n
      ensures Apart(reg, out[i], out[n])
    {
      assert StartsBy(reg, merged[i], r);
      if n < |merged| {
        assert Apart(reg, merged[i], merged[n]);
      } else if i < n - 1 {
        assert Apart(reg, merged[i], merged[n - 1]);
        assert StartsBy(reg, merged[n - 1], r);
      }
    }
  }

  lemma AbsorbStartsBy(reg: Registry, merged: seq<Range>, r: Range, next: Range)
    requires Mapped(reg) && Known(reg, merged) && Fits(reg, r) && Fits(reg, next) && Before(reg, r, next)
    requires forall i :: 0 <= i < |merged| ==> StartsBy(reg, merged[i], r)
    ensures Known(reg, Absorb(merged, r))
    ensures forall i :: 0 <= i < |Absorb(merged, r)| ==> StartsBy(reg, Absorb(merged, r)[i], next)
  {
    var out := Absorb(merged, r);
    var n := |out| - 1;
    assert forall i :: 0 <= i < n ==> out[i] == merged[i];
    forall i | 0 <= i <= n
      ensures Fits(reg, out[i]) && StartsBy(reg, out[i], next)
    {
      if i < |merged| { assert Fits(reg, merged[i]) && StartsBy(reg, merged[i], r); }
    }
  }

  /** Where the merge loop stands after `n` ranges. */
  ghost predicate MergedTo(reg: Registry, rs: seq<Range>, n: nat, merged: seq<Range>) {
    && n <= |rs| && Known(reg, rs) && Known(reg, merged) && Gapped(reg, merged) && |merged| <= n
    && (forall a, x :: InUnion(merged, a, x) == InUnion(rs[..n], a, x))
    && (n < |rs| ==> forall i :: 0 <= i < |merged| ==> StartsBy(reg, merged[i], rs[n]))
  }

  lemma MergeOne(reg: Registry, rs: seq<Range>, n: nat, merged: seq<Range>)
    requires Mapped(reg) && Known(reg, rs) && Sorted(reg, rs) && n < |rs| && MergedTo(reg, rs, n, merged)
    ensures MergedTo(reg, rs, n + 1, Absorb(merged, rs[n]))
  {
    var r, out := rs[n], Absorb(merged, rs[n]);
    AbsorbKeeps(reg, merged, r);
    forall a, x
      ensures InUnion(out, a, x) == InUnion(rs[..n + 1], a, x)
    {
      AbsorbUnion(merged, r, a, x);
      PrefixUnion(rs, n, a, x);
    }
    if n + 1 < |rs| {
      AbsorbStartsBy(reg, merged, r, rs[n + 1]);
    }
  }

  /** The merge loop of the flush. */
  method MergeRanges(reg: Registry, rs: seq<Range>) returns (merged: seq<Range>)
    requires Mapped(reg) && Known(reg, rs) && Sorted(reg, rs)
    ensures Known(reg, merged) && Gapped(reg, merged)
    ensures |merged| <= |rs| && forall a, x :: InUnion(merged, a, x) == InUnion(rs, a, x)
  {
    merged := [];
    for n := 0 to |rs|
      invariant MergedTo(reg, rs, n, merged)
    {
      var r := rs[n];
      MergeOne(reg, rs, n, merged);
      if |merged| == 0 || merged[|merged| - 1].alloc != r.alloc || merged[|merged| - 1].end < r.start {
        merged := merged + [r];
      } else {
        var last := merged[|merged| - 1];
        merged := merged[..|merged| - 1] + [last.(end := if last.end > r.end then last.end else r.end)];
      }
    }
    assert rs[..|rs|] == rs;
  }

  // ----- Clipping -----

  /** LUPINE_MANAGED_HOST_FLUSH_BATCH_RANGES and LUPINE_BULK_COPY_MIN_BYTES. */
  const BATCH_RANGES: nat := 1024
  const BULK_MIN_BYTES: nat := 8 * 1024 * 1024

  /** One copy on the wire: `bytes` bytes of an allocation from host address
      `source`, for server address `dst`. */
  datatype Item = Item(alloc: nat, source: nat, dst: nat, bytes: nat)

  datatype Message = Batch(items: seq<Item>) | Bulk(item: Item)

  function DataStart(al: Allocation): nat { al.hostBase + al.dataOffset }

  predicate InWindow(al: Allocation, x: nat) {
    DataStart(al) <= x < DataStart(al) + al.userSize
  }

  function Max(a: nat, b: nat): nat { if a > b then a else b }

  function Min(a: nat, b: nat): nat { if a < b then a else b }

  /** The part of a range inside the caller's window: one item or none. */
  function Clip(reg: Registry, r: Range): seq<Item>
    requires Fits(reg, r)
  {
    var al := reg[r.alloc];
    var start, end := Max(r.start, DataStart(al)), Min(r.end, DataStart(al) + al.userSize);
    if end <= start then [] else [Item(r.alloc, start, al.backing + (start - al.hostBase), end - start)]
  }

  /** The items of the first `n` ranges. */
  function Items(reg: Registry, rs: seq<Range>, n: nat): seq<Item>
    requires Known(reg, rs) && n <= |rs|
  {
    if n == 0 then [] else Items(reg, rs, n - 1) + Clip(reg, rs[n - 1])
  }

  predicate Carries(item: Item, a: nat, x: nat) {
    item.alloc == a && item.source <= x < item.source + item.bytes
  }

  /** How often the byte at `x` of allocation `a` is sent. */
  function Copies(items: seq<Item>, a: nat, x: nat): nat {
    if items == [] then 0
    else Copies(items[..|items| - 1], a, x) + (if Carries(items[|items| - 1], a, x) then 1 else 0)
  }

  lemma {:induction false} CopiesConcat(s: seq<Item>, t: seq<Item>, a: nat, x: nat)
    ensures Copies(s + t, a, x) == Copies(s, a, x) + Copies(t, a, x)
  {
    if t == [] {
      assert s + t == s;
    } else {
      assert (s + t)[..|s + t| - 1] == s + t[..|t| - 1];
      CopiesConcat(s, t[..|t| - 1], a, x);
    }
  }

  ghost predicate Wanted(reg: Registry, rs: seq<Range>, a: nat, x: nat) {
    a in reg && InWindow(reg[a], x) && InUnion(rs, a, x)
  }

  predicate Covers(reg: Registry, r: Range, a: nat, x: nat) {
    a in reg && InWindow(reg[a], x) && Contains(r, a, x)
  }

  /** How many of the first `n` ranges send the byte. */
  function Carried(reg: Registry, rs: seq<Range>, n: nat, a: nat, x: nat): nat
    requires n <= |rs|
  {
    if n == 0 then 0 else Carried(reg, rs, n - 1, a, x) + if Covers(reg, rs[n - 1], a, x) then 1 else 0
  }

  lemma {:induction false} CarriedIsCopies(reg: Registry, rs: seq<Range>, n: nat, a: nat, x: nat)
    requires Known(reg, rs) && n <= |rs|
    ensures Copies(Items(reg, rs, n), a, x) == Carried(reg, rs, n, a, x)
  {
    if n > 0 {
      CarriedIsCopies(reg, rs, n - 1, a, x);
      CopiesConcat(Items(reg, rs, n - 1), Clip(reg, rs[n - 1]), a, x);
      ClipCarries(reg, rs[n - 1], a, x);
    }
  }

  /** The byte is in one of the first `n` ranges. */
  predicate UnionTo(rs: seq<Range>, n: nat, a: nat, x: nat)
    requires n <= |rs|
  {
    n > 0 && (UnionTo(rs, n - 1, a, x) || Contains(rs[n - 1], a, x))
  }

  lemma {:induction false} UnionToIff(rs: seq<Range>, n: nat, a: nat, x: nat)
    requires n <= |rs|
    ensures UnionTo(rs, n, a, x) <==> exists i :: 0 <= i < n && Contains(rs[i], a, x)
  {
    if n > 0 { UnionToIff(rs, n - 1, a, x); }
  }

  /** A byte of one range is in none before it. */
  lemma {:induction false} NotBefore(reg: Registry, rs: seq<Range>, n: nat, k: nat, a: nat, x: nat)
    requires Known(reg, rs) && Gapped(reg, rs) && k <= n < |rs| && Contains(rs[n], a, x)
    ensures !UnionTo(rs, k, a, x)
    decreases k
  {
    if k > 0 {
      NotBefore(reg, rs, n, k - 1, a, x);
      assert Apart(reg, rs[k - 1], rs[n]);
    }
  }

  lemma {:induction false} SentUpTo(reg: Registry, rs: seq<Range>, n: nat, a: nat, x: nat)
    requires Known(reg, rs) && Gapped(reg, rs) && n <= |rs|
    ensures Carried(reg, rs, n, a, x) == if a in reg && InWindow(reg[a], x) && UnionTo(rs, n, a, x) then 1 else 0
  {
    if n > 0 {
      SentUpTo(reg, rs, n - 1, a, x);
      if Contains(rs[n - 1], a, x) { NotBefore(reg, rs, n - 1, n - 1, a, x); }
    }
  }

  /** Ranges with gaps give each byte of their union inside the window to exactly
      one item, and no other byte to any. */
  lemma SentOnce(reg: Registry, rs: seq<Range>, a: nat, x: nat)
    requires Known(reg, rs) && Gapped(reg, rs)
    ensures Copies(Items(reg, rs, |rs|), a, x) == if Wanted(reg, rs, a, x) then 1 else 0
  {
    CarriedIsCopies(reg, rs, |rs|, a, x);
    SentUpTo(reg, rs, |rs|, a, x);
    UnionToIff(rs, |rs|, a, x);
  }

  lemma ClipCarries(reg: Registry, r: Range, a: nat, x: nat)
    requires Fits(reg, r)
    ensures Copies(Clip(reg, r), a, x) == if a in reg && InWindow(reg[a], x) && Contains(r, a, x) then 1 else 0
  {
    var items := Clip(reg, r);
    if items != [] {
      assert items[..0] == [];
    }
  }

  /** An item lands at the same offset of the backing as it has in the host view. */
  predicate Lands(reg: Registry, item: Item) {
    && item.alloc in reg
    && item.bytes > 0
    && InWindow(reg[item.alloc], item.source)
    && InWindow(reg[item.alloc], item.source + item.bytes - 1)
    && item.dst + reg[item.alloc].hostBase == reg[item.alloc].backing + item.source
  }

  lemma {:induction false} ItemsLand(reg: Registry, rs: seq<Range>, n: nat)
    requires Known(reg, rs) && n <= |rs|
    ensures forall i :: 0 <= i < |Items(reg, rs, n)| ==> Lands(reg, Items(reg, rs, n)[i])
  {
    if n > 0 {
      assert Fits(reg, rs[n - 1]);
      ItemsLand(reg, rs, n - 1);
    }
  }

  lemma {:induction false} ItemsPrefix(reg: Registry, rs: seq<Range>, n: nat, m: nat)
    requires Known(reg, rs) && n <= m <= |rs|
    ensures Items(reg, rs, n) <= Items(reg, rs, m)
    decreases m
  {
    if n < m {
      ItemsPrefix(reg, rs, n, m - 1);
    }
  }

  // ----- Sending -----

  function ItemsOf(m: Message): seq<Item> {
    match m
    case Batch(items) => items
    case Bulk(item) => [item]
  }

  function Sent(ms: seq<Message>): seq<Item> {
    if ms == [] then [] else Sent(ms[..|ms| - 1]) + ItemsOf(ms[|ms| - 1])
  }

  lemma SentAppend(ms: seq<Message>, m: Message)
    ensures Sent(ms + [m]) == Sent(ms) + ItemsOf(m)
  {
    assert (ms + [m])[..|ms|] == ms;
  }

  predicate WellSized(m: Message) {
    match m
    case Batch(items) => 0 < |items| <= BATCH_RANGES
    case Bulk(item) => item.bytes >= BULK_MIN_BYTES
  }

  /** A range that has to be sent but has no backing on the route. */
  predicate Unbacked(reg: Registry, r: Range)
    requires Fits(reg, r)
  {
    Clip(reg, r) != [] && reg[r.alloc].backing == 0
  }

  /** send_batch: one request for the collected items, or none if there are none. */
  method SendBatch(ms: seq<Message>, batch: seq<Item>, accepts: nat) returns (ok: bool, out: seq<Message>)
    requires |ms| <= accepts && |batch| <= BATCH_RANGES && AllWellSized(ms)
    ensures |out| <= accepts && AllWellSized(out)
    ensures ok ==> Sent(out) == Sent(ms) + batch
    ensures !ok ==> out == ms && |ms| == accepts
  {
    if batch == [] {
      return true, ms;
    }
    if |ms| == accepts {
      return false, ms;
    }
    SentAppend(ms, Batch(batch));
    return true, ms + [Batch(batch)];
  }

  ghost predicate AllWellSized(ms: seq<Message>) {
    forall i :: 0 <= i < |ms| ==> WellSized(ms[i])
  }

  ghost predicate SomeUnbacked(reg: Registry, rs: seq<Range>)
    requires Known(reg, rs)
  {
    exists i :: 0 <= i < |rs| && Unbacked(reg, rs[i])
  }

  /** One turn of the sending loop for a clipped range. `lanes` says whether bulk
      lanes exist, and `accepts` is how many messages the transport acknowledges
      before it fails. */
  method SendItem(ms: seq<Message>, batch: seq<Item>, item: Item, lanes: bool, accepts: nat)
    returns (ok: bool, out: seq<Message>, rest: seq<Item>)
    requires |ms| <= accepts && |batch| < BATCH_RANGES && AllWellSized(ms)
    ensures |out| <= accepts && AllWellSized(out) && |rest| < BATCH_RANGES
    ensures ok ==> Sent(out) + rest == Sent(ms) + batch + [item]
    ensures !ok ==> |out| == accepts && Sent(out) <= Sent(ms) + batch
  {
    if lanes && item.bytes >= BULK_MIN_BYTES {
      ok, out := SendBatch(ms, batch, accepts);
      if !ok || |out| == accepts {
        return false, out, [];
      }
      SentAppend(out, Bulk(item));
      return true, out + [Bulk(item)], [];
    }
    rest := batch + [item];
    if |rest| < BATCH_RANGES {
      return true, ms, rest;
    }
    ok, out := SendBatch(ms, rest, accepts);
    rest := [];
  }

  /** The body of the sending loop for one merged range. */
  method SendRange(reg: Registry, r: Range, ms: seq<Message>, batch: seq<Item>, lanes: bool, accepts: nat)
    returns (ok: bool, out: seq<Message>, rest: seq<Item>)
    requires Fits(reg, r) && |ms| <= accepts && |batch| < BATCH_RANGES && AllWellSized(ms)
    ensures |out| <= accepts && AllWellSized(out) && |rest| < BATCH_RANGES
    ensures ok ==> Sent(out) + rest == Sent(ms) + batch + Clip(reg, r) && !Unbacked(reg, r)
    ensures !ok ==> Sent(out) <= Sent(ms) + batch && (|out| == accepts || Unbacked(reg, r))
  {
    var clipped := Clip(reg, r);
    if clipped == [] {
      return true, ms, batch;
    }
    if reg[r.alloc].backing == 0 {
      return false, ms, batch;
    }
    ok, out, rest := SendItem(ms, batch, clipped[0], lanes, accepts);
  }

  /** What the sending loop has done with the first `n` ranges. */
  ghost predicate Progress(reg: Registry, rs: seq<Range>, n: nat, ms: seq<Message>, batch: seq<Item>)
    requires Known(reg, rs) && n <= |rs|
  {
    && Sent(ms) + batch == Items(reg, rs, n)
    && forall i :: 0 <= i < n ==> !Unbacked(reg, rs[i])
  }

  lemma Advance(reg: Registry, rs: seq<Range>, n: nat, ms: seq<Message>, batch: seq<Item>,
                ms': seq<Message>, batch': seq<Item>)
    requires Known(reg, rs) && n < |rs| && Progress(reg, rs, n, ms, batch)
    requires Sent(ms') + batch' == Sent(ms) + batch + Clip(reg, rs[n]) && !Unbacked(reg, rs[n])
    ensures Progress(reg, rs, n + 1, ms', batch')
  {
  }

  lemma Stop(reg: Registry, rs: seq<Range>, n: nat, ms: seq<Message>, batch: seq<Item>, sent: seq<Item>)
    requires Known(reg, rs) && n <= |rs| && Progress(reg, rs, n, ms, batch) && sent <= Sent(ms) + batch
    ensures sent <= Items(reg, rs, |rs|)
  {
    ItemsPrefix(reg, rs, n, |rs|);
  }

  /** The sending loop. */
  method SendRanges(reg: Registry, rs: seq<Range>, lanes: bool, accepts: nat)
    returns (ok: bool, ms: seq<Message>)
    requires Known(reg, rs)
    ensures Sent(ms) <= Items(reg, rs, |rs|) && |ms| <= accepts && AllWellSized(ms)
    ensures ok ==> Sent(ms) == Items(reg, rs, |rs|) && !SomeUnbacked(reg, rs)
    ensures !ok ==> |ms| == accepts || SomeUnbacked(reg, rs)
  {
    ms := [];
    var batch := [];
    for n := 0 to |rs|
      invariant Progress(reg, rs, n, ms, batch)
      invariant |batch| < BATCH_RANGES && |ms| <= accepts && AllWellSized(ms)
    {
      ghost var ms0, batch0 := ms, batch;
      ok, ms, batch := SendRange(reg, rs[n], ms, batch, lanes, accepts);
      if !ok {
        Stop(reg, rs, n, ms0, batch0, Sent(ms));
        return;
      }
      Advance(reg, rs, n, ms0, batch0, ms, batch);
    }
    Stop(reg, rs, |rs|, ms, batch, Sent(ms));
    ok, ms := SendBatch(ms, batch, accepts);
  }

  lemma CopiesPrefix(s: seq<Item>, t: seq<Item>, a: nat, x: nat)
    requires s <= t
    ensures Copies(s, a, x) <= Copies(t, a, x)
  {
    assert t == s + t[|s|..];
    CopiesConcat(s, t[|s|..], a, x);
  }

  /** Some byte has to be sent and has no backing on the route. */
  ghost predicate WantsUnbacked(reg: Registry, rs: seq<Range>) {
    exists a, x :: Wanted(reg, rs, a, x) && reg[a].backing == 0
  }

  lemma UnbackedIsWanted(reg: Registry, rs: seq<Range>)
    requires Known(reg, rs)
    ensures SomeUnbacked(reg, rs) <==> WantsUnbacked(reg, rs)
  {
    if SomeUnbacked(reg, rs) {
      var i :| 0 <= i < |rs| && Unbacked(reg, rs[i]);
      var x := Max(rs[i].start, DataStart(reg[rs[i].alloc]));
      assert Contains(rs[i], rs[i].alloc, x) && Wanted(reg, rs, rs[i].alloc, x);
    }
    if WantsUnbacked(reg, rs) {
      var a, x :| Wanted(reg, rs, a, x) && reg[a].backing == 0;
      var i :| 0 <= i < |rs| && Contains(rs[i], a, x);
      assert Unbacked(reg, rs[i]);
    }
  }

  lemma SameWants(reg: Registry, rs: seq<Range>, other: seq<Range>)
    requires forall a, x :: InUnion(rs, a, x) == InUnion(other, a, x)
    ensures WantsUnbacked(reg, rs) <==> WantsUnbacked(reg, other)
  {
    if a, x :| Wanted(reg, rs, a, x) && reg[a].backing == 0 {
      assert Wanted(reg, other, a, x);
    }
    if a, x :| Wanted(reg, other, a, x) && reg[a].backing == 0 {
      assert Wanted(reg, rs, a, x);
    }
  }

  /** No message is empty, and no range makes two items. */
  lemma {:induction false} MessagesCarry(ms: seq<Message>)
    requires AllWellSized(ms)
    ensures |ms| <= |Sent(ms)|
  {
    if ms != [] {
      MessagesCarry(ms[..|ms| - 1]);
      assert WellSized(ms[|ms| - 1]);
    }
  }

  lemma {:induction false} ItemsBounded(reg: Registry, rs: seq<Range>, n: nat)
    requires Known(reg, rs) && n <= |rs|
    ensures |Items(reg, rs, n)| <= n
  {
    if n > 0 { ItemsBounded(reg, rs, n - 1); }
  }

  /** A whole flush of one route: sort, merge, send. Every byte of the collected
      ranges inside its caller's window is sent exactly once, to the same offset
      of the backing, and nothing else is sent; a flush that fails has sent none
      of it twice, and fails only for want of a backing or of the transport. */
  method FlushRanges(reg: Registry, rs: seq<Range>, lanes: bool, accepts: nat)
    returns (ok: bool, ms: seq<Message>)
    requires Mapped(reg) && Known(reg, rs)
    ensures ok ==> forall a, x :: Copies(Sent(ms), a, x) == if Wanted(reg, rs, a, x) then 1 else 0
    ensures forall a, x :: Copies(Sent(ms), a, x) <= if Wanted(reg, rs, a, x) then 1 else 0
    ensures forall i :: 0 <= i < |Sent(ms)| ==> Lands(reg, Sent(ms)[i])
    ensures AllWellSized(ms) && |ms| <= accepts && |ms| <= |rs|
    ensures ok ==> !WantsUnbacked(reg, rs)
    ensures !ok ==> |ms| == accepts || WantsUnbacked(reg, rs)
  {
    var sorted := SortRanges(reg, rs);
    var merged := MergeRanges(reg, sorted);
    ok, ms := SendRanges(reg, merged, lanes, accepts);
    forall a, x
      ensures InUnion(merged, a, x) == InUnion(rs, a, x)
    {
      SameRanges(rs, sorted, a, x);
    }
    forall a, x
      ensures Copies(Sent(ms), a, x) <= if Wanted(reg, rs, a, x) then 1 else 0
      ensures ok ==> Copies(Sent(ms), a, x) == if Wanted(reg, rs, a, x) then 1 else 0
    {
      SentOnce(reg, merged, a, x);
      CopiesPrefix(Sent(ms), Items(reg, merged, |merged|), a, x);
    }
    ItemsLand(reg, merged, |merged|);
    ItemsBounded(reg, merged, |merged|);
    MessagesCarry(ms);
    UnbackedIsWanted(reg, merged);
    SameWants(reg, merged, rs);
    assert |rs| == |multiset(rs)| == |multiset(sorted)| == |sorted|;
  }
}
