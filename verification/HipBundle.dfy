/** Measuring a Clang offload bundle (hip_fatbin.h). The client measures one of
    unknown length in its own memory before it sends it; the server measures what
    it received and accepts it only if the two agree. */
module HipBundle {
  import opened LittleEndian

  /** The bytes from the image's first one on. */
  type Memory = nat -> Byte

  const MAGIC: seq<Byte> := [95, 95, 67, 76, 65, 78, 71, 95, 79, 70, 70, 76, 79, 65, 68,
                             95, 66, 85, 78, 68, 76, 69, 95, 95]
  const HEADER: nat := 32
  const ROW: nat := 24
  const MAX_COUNT: nat := 64
  const MAX_ID: nat := 4096
  const MAX_IMAGE: nat := 0x1000_0000

  /** The 64-bit number at each address. */
  type Table = nat -> nat

  function Bytes(m: Memory, at: nat): seq<Byte> { seq(8, i requires 0 <= i < 8 => m(at + i)) }

  function Word(m: Memory, at: nat): nat { Decode(Bytes(m, at)) }

  function Words(m: Memory): Table { (at: nat) => Word(m, at) }

  predicate Magic(m: Memory) { forall i :: 0 <= i < 24 ==> m(i) == MAGIC[i] }

  // ----- The table -----

  function Count(t: Table): nat { t(24) }

  /** Where the row after the one at `at` begins: behind its identifier. */
  function After(t: Table, at: nat): nat { at + ROW + t(at + 16) }

  /** Where row `i` of the table begins. */
  function Row(t: Table, i: nat): nat { if i == 0 then HEADER else After(t, Row(t, i - 1)) }

  function Offset(t: Table, i: nat): nat { t(Row(t, i)) }

  function Size(t: Table, i: nat): nat { t(Row(t, i) + 8) }

  function IdSize(t: Table, i: nat): nat { t(Row(t, i) + 16) }

  predicate RowOk(t: Table, i: nat) {
    Offset(t, i) <= MAX_IMAGE && Size(t, i) <= MAX_IMAGE - Offset(t, i) && IdSize(t, i) <= MAX_ID
  }

  /** Every row is within the limits and the table ends before any payload. */
  ghost predicate InOrder(t: Table) {
    && 1 <= Count(t) <= MAX_COUNT
    && forall i :: 0 <= i < Count(t) ==> RowOk(t, i) && Row(t, Count(t)) <= Offset(t, i)
  }

  /** The end of the payload that reaches furthest, among the first `n`. */
  function Extent(t: Table, n: nat): nat {
    if n == 0 then HEADER else Max(Extent(t, n - 1), Offset(t, n - 1) + Size(t, n - 1))
  }

  function FirstPayload(t: Table, n: nat): nat {
    if n == 0 then MAX_IMAGE else Min(FirstPayload(t, n - 1), Offset(t, n - 1))
  }

  function Max(a: nat, b: nat): nat { if a < b then b else a }

  function Min(a: nat, b: nat): nat { if b < a then b else a }

  lemma {:induction false} RowsAscend(t: Table, i: nat, j: nat)
    requires i < j
    ensures HEADER <= Row(t, i) && Row(t, i) + ROW + IdSize(t, i) <= Row(t, j)
    decreases j
  {
    if i + 1 < j {
      RowsAscend(t, i, j - 1);
    } else {
      RowAfterHeader(t, i);
    }
  }

  lemma {:induction false} RowAfterHeader(t: Table, i: nat)
    ensures HEADER <= Row(t, i)
  {
    if i > 0 { RowAfterHeader(t, i - 1); }
  }

  /** The extent is the end of some payload and no payload ends after it. */
  lemma {:induction false} ExtentIsReached(t: Table, n: nat)
    ensures HEADER <= Extent(t, n)
    ensures Extent(t, n) == HEADER || exists i :: 0 <= i < n && Extent(t, n) == Offset(t, i) + Size(t, i)
    ensures forall i :: 0 <= i < n ==> Offset(t, i) + Size(t, i) <= Extent(t, n)
  {
    if n > 0 {
      ExtentIsReached(t, n - 1);
      if Extent(t, n) == Extent(t, n - 1) && Extent(t, n) != HEADER {
        var i :| 0 <= i < n - 1 && Extent(t, n - 1) == Offset(t, i) + Size(t, i);
      }
    }
  }

  lemma {:induction false} FirstPayloadIsLeast(t: Table, n: nat, bound: nat)
    requires bound <= MAX_IMAGE
    ensures bound <= FirstPayload(t, n) <==> forall i :: 0 <= i < n ==> bound <= Offset(t, i)
  {
    if n > 0 { FirstPayloadIsLeast(t, n - 1, bound); }
  }

  /** In a bundle the table ends before the first payload and inside the extent. */
  lemma TableFits(t: Table, i: nat)
    requires InOrder(t) && i < Count(t)
    ensures Row(t, i) + ROW + IdSize(t, i) <= Row(t, Count(t)) <= FirstPayload(t, i)
    ensures Row(t, Count(t)) <= FirstPayload(t, Count(t))
    ensures HEADER <= Row(t, Count(t)) <= Extent(t, Count(t)) <= MAX_IMAGE
  {
    var n := Count(t);
    RowsAscend(t, i, n);
    assert RowOk(t, 0);
    ExtentIsReached(t, n);
    FirstPayloadIsLeast(t, i, Row(t, n));
    FirstPayloadIsLeast(t, n, Row(t, n));
    if Extent(t, n) != HEADER {
      var k :| 0 <= k < n && Extent(t, n) == Offset(t, k) + Size(t, k);
      assert RowOk(t, k);
    }
  }

  // ----- Measuring -----

  /** A load that keeps account of how far memory has been read. */
  method Load(t: Table, at: nat, ghost read: nat) returns (value: nat, ghost end: nat)
    ensures value == t(at) && end == Max(read, at + 8)
  {
    value := t(at);
    end := Max(read, at + 8);
  }

  /** The row lies before any payload that an earlier row lists. */
  predicate RowClear(t: Table, i: nat) { Row(t, i) + ROW <= FirstPayload(t, i) }

  /** What the walk has found in order after `n` rows, and after all of them. */
  predicate RowsOk(t: Table, n: nat) { n == 0 || (RowsOk(t, n - 1) && RowOk(t, n - 1) && RowClear(t, n - 1)) }

  predicate Checked(t: Table) { RowsOk(t, Count(t)) && Row(t, Count(t)) <= FirstPayload(t, Count(t)) }

  lemma {:induction false} RowsOkIff(t: Table, n: nat)
    ensures RowsOk(t, n) <==> forall i :: 0 <= i < n ==> RowOk(t, i) && RowClear(t, i)
  {
    if n > 0 { RowsOkIff(t, n - 1); }
  }

  lemma CheckedIsInOrder(t: Table)
    requires 1 <= Count(t) <= MAX_COUNT
    ensures Checked(t) <==> InOrder(t)
  {
    RowsOkIff(t, Count(t));
    if InOrder(t) {
      forall i | 0 <= i < Count(t)
        ensures RowOk(t, i) && RowClear(t, i)
      {
        TableFits(t, i);
      }
      TableFits(t, 0);
    }
    NoMoreThanMax(t, Count(t));
    if Checked(t) { FirstPayloadIsLeast(t, Count(t), Row(t, Count(t))); }
  }

  lemma {:induction false} NoMoreThanMax(t: Table, n: nat)
    ensures FirstPayload(t, n) <= MAX_IMAGE
  {
    if n > 0 { NoMoreThanMax(t, n - 1); }
  }

  /** The end of the last of the first rows. */
  function RowEnd(t: Table, rows: nat): nat { if rows == 0 then HEADER else Row(t, rows - 1) + ROW }

  /** What has been read: no further than the end of row `rows - 1`. */
  ghost predicate ReadTo(t: Table, rows: nat, read: nat) {
    read <= RowEnd(t, rows) && (rows > 0 ==> RowsOk(t, rows - 1) && RowClear(t, rows - 1))
  }

  /** So no row that was read lies in a payload that an earlier row lists. */
  lemma RowsBeforePayloads(t: Table, rows: nat, read: nat, i: nat, j: nat)
    requires ReadTo(t, rows, read) && j < i < rows
    ensures Row(t, i) + ROW <= Offset(t, j)
  {
    RowsOkIff(t, rows - 1);
    assert RowClear(t, i);
    NoMoreThanMax(t, i);
    FirstPayloadIsLeast(t, i, Row(t, i) + ROW);
  }

  /** One row; refused when it does not fit or is out of bounds. */
  method ReadRow(t: Table, ghost i: nat, cursor: nat, available: nat, first: nat, ghost start: nat)
    returns (ok: bool, next: nat, offset: nat, end: nat, ghost read: nat, ghost rows: nat)
    requires cursor == Row(t, i) && start <= cursor <= available
    ensures ok <==> cursor + ROW <= first && RowOk(t, i) && Row(t, i + 1) <= available
    ensures ok ==> next == Row(t, i + 1) && offset == Offset(t, i) && end == offset + Size(t, i) && rows == i + 1
    ensures read <= available
    ensures if rows == i then read == start else rows == i + 1 && read <= cursor + ROW <= first
  {
    ok, next, offset, end, read, rows := false, 0, 0, 0, start, i;
    if cursor > available || available - cursor < ROW || cursor + ROW > first {
      return;
    }
    rows := i + 1;
    var bytes, idSize;
    offset, read := Load(t, cursor, read);
    bytes, read := Load(t, cursor + 8, read);
    idSize, read := Load(t, cursor + 16, read);
    if offset > MAX_IMAGE || bytes > MAX_IMAGE - offset || idSize > MAX_ID {
      return;
    }
    next := cursor + ROW;
    if idSize > available - next {
      return;
    }
    ok, next, end := true, next + idSize, offset + bytes;
  }

  /** A bundle passes every row of its table that is there. */
  lemma RowsPass(t: Table, i: nat)
    requires 1 <= Count(t) <= MAX_COUNT && Checked(t) && i < Count(t)
    ensures Row(t, i) + ROW <= FirstPayload(t, i) && RowOk(t, i)
    ensures Row(t, i) + ROW <= Row(t, i + 1) <= Row(t, Count(t)) <= Extent(t, Count(t))
  {
    CheckedIsInOrder(t);
    TableFits(t, i);
  }

  /** The walk so far. */
  ghost predicate Walked(t: Table, i: nat, cursor: nat, extent: nat, first: nat) {
    cursor == Row(t, i) && extent == Extent(t, i) && first == FirstPayload(t, i) && RowsOk(t, i)
  }

  ghost function Answer(t: Table, available: nat): nat {
    if Checked(t) && Extent(t, Count(t)) <= available then Extent(t, Count(t)) else 0
  }

  ghost predicate Inside(t: Table, read: nat) { Checked(t) ==> read <= Extent(t, Count(t)) }

  lemma Refused(t: Table, i: nat, available: nat)
    requires 1 <= Count(t) <= MAX_COUNT && i < Count(t)
    requires !(RowClear(t, i) && RowOk(t, i) && Row(t, i + 1) <= available)
    ensures Answer(t, available) == 0
  {
    if Checked(t) { RowsPass(t, i); }
  }

  lemma InsideRow(t: Table, i: nat, read: nat)
    requires 1 <= Count(t) <= MAX_COUNT && i < Count(t) && read <= Row(t, i) + ROW
    ensures Inside(t, read)
  {
    if Checked(t) { RowsPass(t, i); }
  }

  lemma ReadOneMore(t: Table, i: nat, read: nat)
    requires RowsOk(t, i) && RowClear(t, i) && read <= Row(t, i) + ROW
    ensures ReadTo(t, i + 1, read)
  {
  }

  lemma WalkedOne(t: Table, i: nat, cursor: nat, extent: nat, first: nat)
    requires Walked(t, i, cursor, extent, first) && RowOk(t, i) && RowClear(t, i)
    ensures cursor + ROW <= Row(t, i + 1)
    ensures Walked(t, i + 1, Row(t, i + 1), Max(extent, Offset(t, i) + Size(t, i)), Min(first, Offset(t, i)))
  {
  }

  /** Before row `i`: every row so far was read, and nothing beyond them. */
  ghost predicate Along(t: Table, i: nat, cursor: nat, extent: nat, first: nat, available: nat, read: nat) {
    Walked(t, i, cursor, extent, first) && read <= cursor <= available && ReadTo(t, i, read)
  }

  lemma WalkBegins(t: Table, available: nat)
    requires HEADER <= available
    ensures Along(t, 0, HEADER, HEADER, MAX_IMAGE, available, HEADER)
  {
  }

  /** The walk goes on past row `i`, or the row is refused. */
  method WalkRow(t: Table, ghost i: nat, cursor: nat, extent: nat, first: nat, available: nat, ghost start: nat)
    returns (ok: bool, cursor': nat, extent': nat, first': nat, ghost read: nat, ghost rows: nat)
    requires 1 <= Count(t) <= MAX_COUNT && i < Count(t)
    requires Along(t, i, cursor, extent, first, available, start)
    ensures ok ==> Along(t, i + 1, cursor', extent', first', available, read) && rows == i + 1
    ensures !ok ==> Answer(t, available) == 0
    ensures read <= available && ReadTo(t, rows, read) && rows <= i + 1
  {
    var next, offset, end;
    ok, next, offset, end, read, rows := ReadRow(t, i, cursor, available, first, start);
    if rows > i { ReadOneMore(t, i, read); }
    if ok {
      WalkedOne(t, i, cursor, extent, first);
    } else {
      Refused(t, i, available);
    }
    cursor', first', extent' := next, Min(first, offset), Max(extent, end);
  }

  /** The rows of the table in order. */
  method WalkRows(t: Table, count: nat, available: nat, ghost start: nat)
    returns (ok: bool, cursor: nat, extent: nat, first: nat, ghost read: nat, ghost rows: nat)
    requires 1 <= count <= MAX_COUNT && count == Count(t) && start == HEADER <= available
    ensures ok ==> Walked(t, count, cursor, extent, first)
    ensures !ok ==> Answer(t, available) == 0
    ensures read <= available && ReadTo(t, rows, read) && rows <= count
  {
    ok, cursor, extent, first, read, rows := true, HEADER, HEADER, MAX_IMAGE, start, 0;
    WalkBegins(t, available);
    for i := 0 to count
      invariant ok && rows == i && Along(t, i, cursor, extent, first, available, read)
    {
      ok, cursor, extent, first, read, rows := WalkRow(t, i, cursor, extent, first, available, read);
      if !ok {
        return;
      }
    }
  }

  method Walk(t: Table, count: nat, available: nat, ghost start: nat) returns (size: nat, ghost read: nat, ghost rows: nat)
    requires 1 <= count <= MAX_COUNT && count == Count(t) && start == HEADER <= available
    ensures size == Answer(t, available)
    ensures read <= available && ReadTo(t, rows, read) && Inside(t, read)
  {
    var ok, cursor, extent, first;
    ok, cursor, extent, first, read, rows := WalkRows(t, count, available, start);
    InsideRow(t, if rows > 0 then rows - 1 else 0, read);
    size := if !ok || cursor > first || extent > available then 0 else extent;
  }

  // ----- Bundles -----

  ghost predicate Bundle(m: Memory) { Magic(m) && InOrder(Words(m)) }

  /** The end of the bundle's last payload. */
  function End(m: Memory): nat { Extent(Words(m), Count(Words(m))) }

  /** What measuring answers: the end of a bundle that is all there, otherwise 0. */
  ghost function Measured(m: Memory, available: nat): nat {
    if Bundle(m) && End(m) <= available then End(m) else 0
  }

  /** lupine_hip_bundle_size. `read` is the end of what was read: never beyond what
      is available, never into a payload already listed, and of a bundle never beyond
      the bundle. */
  method BundleSize(m: Memory, available: nat) returns (size: nat, ghost read: nat, ghost rows: nat)
    ensures size == Measured(m, available)
    ensures read <= available && ReadTo(Words(m), rows, read)
    ensures Bundle(m) ==> read <= End(m)
  {
    read, rows := 0, 0;
    ExtentIsReached(Words(m), Count(Words(m)));
    if available < HEADER {
      return 0, read, rows;
    }
    read := HEADER;
    if !Magic(m) {
      return 0, read, rows;
    }
    var count := Word(m, 24);
    if count == 0 || count > MAX_COUNT {
      return 0, read, rows;
    }
    CheckedIsInOrder(Words(m));
    size, read, rows := Walk(Words(m), count, available, read);
  }

  // ----- Client and server -----

  ghost predicate Agree(a: Memory, b: Memory, n: nat) { forall i :: 0 <= i < n ==> a(i) == b(i) }

  ghost predicate SameWords(a: Table, b: Table, n: nat) { forall at: nat :: at + 8 <= n ==> a(at) == b(at) }

  lemma AgreeingWords(a: Memory, b: Memory, n: nat)
    requires Agree(a, b, n)
    ensures SameWords(Words(a), Words(b), n)
  {
    forall at: nat | at + 8 <= n
      ensures Words(a)(at) == Words(b)(at)
    {
      assert Bytes(a, at) == Bytes(b, at);
    }
  }

  lemma {:induction false} SameRows(a: Table, b: Table, n: nat, i: nat)
    requires SameWords(a, b, n) && Row(a, i) <= n
    ensures Row(b, i) == Row(a, i)
  {
    if i > 0 {
      SameRows(a, b, n, i - 1);
      assert b(Row(a, i - 1) + 16) == a(Row(a, i - 1) + 16);
    }
  }

  lemma SameRow(a: Table, b: Table, n: nat, i: nat)
    requires SameWords(a, b, n) && Row(a, i) + ROW <= n
    ensures Row(b, i) == Row(a, i) && Offset(b, i) == Offset(a, i) && Size(b, i) == Size(a, i)
    ensures IdSize(b, i) == IdSize(a, i)
  {
    SameRows(a, b, n, i);
  }

  lemma {:induction false} SameExtent(a: Table, b: Table, n: nat)
    requires forall i :: 0 <= i < n ==> Offset(b, i) == Offset(a, i) && Size(b, i) == Size(a, i)
    ensures Extent(a, n) == Extent(b, n)
  {
    if n > 0 { SameExtent(a, b, n - 1); }
  }

  /** The words up to its extent decide that a table is in order. */
  lemma OrderIsLocal(a: Table, b: Table)
    requires InOrder(a) && SameWords(a, b, Extent(a, Count(a)))
    ensures InOrder(b) && Extent(b, Count(b)) == Extent(a, Count(a))
  {
    var n, end := Count(a), Extent(a, Count(a));
    TableFits(a, 0);
    assert Count(b) == n;
    SameRows(a, b, end, n);
    forall i | 0 <= i < n
      ensures RowOk(b, i) && Offset(b, i) == Offset(a, i) && Size(b, i) == Size(a, i)
    {
      TableFits(a, i);
      assert RowOk(a, i);
      SameRow(a, b, end, i);
    }
    SameExtent(a, b, n);
  }

  lemma EndBounds(t: Table)
    requires InOrder(t)
    ensures HEADER < Extent(t, Count(t)) <= MAX_IMAGE
  {
    TableFits(t, 0);
    RowsAscend(t, 0, Count(t));
  }

  lemma SameMagic(a: Memory, b: Memory, n: nat)
    requires Magic(a) && Agree(a, b, n) && 24 <= n
    ensures Magic(b)
  {
  }

  lemma BundleIsLocal(a: Memory, b: Memory)
    requires Bundle(a) && Agree(a, b, End(a))
    ensures Bundle(b) && End(b) == End(a) && HEADER < End(a) <= MAX_IMAGE
  {
    EndBounds(Words(a));
    SameMagic(a, b, End(a));
    AgreeingWords(a, b, End(a));
    OrderIsLocal(Words(a), Words(b));
  }

  /** Once an image measures `n` under any bound, every image that shares its first `n`
      bytes, whatever follows them, measures `n` under every bound that holds it and 0
      under every smaller one. So a server given those `n` bytes accepts them, one
      given fewer refuses them, and the client's unbounded measure is the right one. */
  lemma ServerAgrees(client: Memory, bound: nat, server: Memory, received: nat)
    requires Measured(client, bound) > 0 && Agree(client, server, Measured(client, bound))
    ensures var n := Measured(client, bound);
            && HEADER < n <= bound && n <= MAX_IMAGE
            && Measured(server, received) == (if n <= received then n else 0)
  {
    BundleIsLocal(client, server);
  }

  /** Every payload lies before `n` and behind the whole table, and one ends there. */
  ghost predicate Holds(t: Table, n: nat) {
    && (forall i :: 0 <= i < Count(t) ==> Row(t, Count(t)) <= Offset(t, i) && Offset(t, i) + Size(t, i) <= n)
    && (exists i :: 0 <= i < Count(t) && Offset(t, i) + Size(t, i) == n)
  }

  lemma PayloadsInside(t: Table)
    requires InOrder(t)
    ensures Holds(t, Extent(t, Count(t)))
  {
    ExtentIsReached(t, Count(t));
    EndBounds(t);
  }

  /** Every payload lies inside what is sent, behind the whole table; and not a byte
      more is sent than the last payload needs. */
  lemma PayloadsAreSent(m: Memory, bound: nat)
    requires Measured(m, bound) > 0
    ensures Holds(Words(m), Measured(m, bound))
  {
    PayloadsInside(Words(m));
  }
}
