/** The profile file (cuda_client.cpp): one length-prefixed record after another. An
    entry of the profile is its record; LibraryRecords.DecodeRecord says what it names. */
module LibraryProfile {
  import opened LittleEndian
  import opened Options
  import opened Sequences
  import LibraryRecords

  type Bytes = seq<Byte>

  const MAX_ENTRIES: nat := 4096

  // ----- Reading -----

  /** The complete record at the beginning, if there is one that passes the check. */
  function Head(data: Bytes, check: Bytes -> bool): Option<Bytes> {
    if |data| < 4 || Field(data, 0, 4) > |data| - 4 then None
    else
      var record := data[4..4 + Field(data, 0, 4)];
      if check(record) then Some(record) else None
  }

  /** The records a file yields while there is room for them: the longest run of
      complete records that pass the check. */
  function Records(data: Bytes, room: nat, check: Bytes -> bool): seq<Bytes>
    decreases |data|
  {
    if room == 0 || Head(data, check).None? then []
    else
      var record := Head(data, check).value;
      [record] + Records(data[4 + |record|..], room - 1, check)
  }

  /** The head read in place. */
  lemma HeadAt(data: Bytes, at: nat, check: Bytes -> bool)
    requires at + 4 <= |data|
    ensures var size := Field(data, at, 4);
            Head(data[at..], check) == if size > |data| - at - 4 || !check(data[at + 4..at + 4 + size]) then None
                                       else Some(data[at + 4..at + 4 + size])
  {
    var rest := data[at..];
    assert rest[0..4] == data[at..at + 4];
    var size := Field(data, at, 4);
    if size <= |data| - at - 4 { assert rest[4..4 + size] == data[at + 4..at + 4 + size]; }
  }

  /** How far the loop has come. */
  ghost predicate Parsed(data: Bytes, limit: nat, check: Bytes -> bool, at: nat, records: seq<Bytes>) {
    && at <= |data| && |records| <= limit
    && records + Records(data[at..], limit - |records|, check) == Records(data, limit, check)
  }

  lemma ParsedStart(data: Bytes, limit: nat, check: Bytes -> bool)
    ensures Parsed(data, limit, check, 0, [])
  {
    Whole(data);
    Nothing(Records(data, limit, check));
  }

  lemma ParsedStop(data: Bytes, limit: nat, check: Bytes -> bool, at: nat, records: seq<Bytes>)
    requires Parsed(data, limit, check, at, records) && (|records| == limit || Head(data[at..], check).None?)
    ensures records == Records(data, limit, check)
  {
    Nothing(records);
  }

  lemma ParsedOne(data: Bytes, limit: nat, check: Bytes -> bool, at: nat, records: seq<Bytes>, record: Bytes)
    requires Parsed(data, limit, check, at, records) && |records| < limit && Head(data[at..], check) == Some(record)
    ensures Parsed(data, limit, check, at + 4 + |record|, records + [record])
  {
    Drop(data, at, 4 + |record|);
    Reassociate(records, [record], Records(data[at + 4 + |record|..], limit - |records| - 1, check));
  }

  method ReadHead(data: Bytes, at: nat, check: Bytes -> bool) returns (head: Option<Bytes>)
    requires at + 4 <= |data|
    ensures head == Head(data[at..], check)
  {
    HeadAt(data, at, check);
    var size := Field(data, at, 4);
    if size > |data| - (at + 4) || !check(data[at + 4..at + 4 + size]) {
      return None;
    }
    return Some(data[at + 4..at + 4 + size]);
  }

  method ParseRecords(data: Bytes, limit: nat, check: Bytes -> bool) returns (records: seq<Bytes>)
    ensures records == Records(data, limit, check)
  {
    var at: nat := 0;
    records := [];
    ParsedStart(data, limit, check);
    while at + 4 <= |data| && |records| < limit
      invariant Parsed(data, limit, check, at, records)
      decreases |data| - at
    {
      var head := ReadHead(data, at, check);
      if head.None? {
        ParsedStop(data, limit, check, at, records);
        return;
      }
      ParsedOne(data, limit, check, at, records, head.value);
      records, at := records + [head.value], at + 4 + |head.value|;
    }
    ParsedStop(data, limit, check, at, records);
  }

  // ----- Recording -----

  function Line(record: Bytes): Bytes { Encode(|record|, 4) + record }

  function Lines(records: seq<Bytes>): Bytes {
    if records == [] then [] else Line(records[0]) + Lines(records[1..])
  }

  /** Records that pass the check, of a length the prefix can hold. */
  ghost predicate Sound(records: seq<Bytes>, check: Bytes -> bool) {
    forall i :: 0 <= i < |records| ==> |records[i]| < Power(4) && check(records[i])
  }

  function First<T>(s: seq<T>, n: nat): seq<T> { if |s| <= n then s else s[..n] }

  lemma HeadOfLine(record: Bytes, rest: Bytes, check: Bytes -> bool)
    requires |record| < Power(4) && check(record)
    ensures Head(Line(record) + rest, check) == Some(record) && (Line(record) + rest)[4 + |record|..] == rest
  {
    var data := Line(record) + rest;
    assert data[0..4] == Encode(|record|, 4);
    RoundTrip(|record|, 4);
    assert data[4..4 + |record|] == record;
  }

  lemma OneLine(record: Bytes, rest: Bytes, room: nat, check: Bytes -> bool)
    requires |record| < Power(4) && check(record) && room > 0
    ensures Records(Line(record) + rest, room, check) == [record] + Records(rest, room - 1, check)
  {
    HeadOfLine(record, rest, check);
  }

  lemma AllLines(records: seq<Bytes>, tail: Bytes)
    requires records != []
    ensures Lines(records) + tail == Line(records[0]) + (Lines(records[1..]) + tail)
  {
    Reassociate(Line(records[0]), Lines(records[1..]), tail);
  }

  /** A file begun by recorded lines yields their records, in order and up to the limit,
      and then whatever can still be read of what follows them. */
  function Yield(records: seq<Bytes>, tail: Bytes, room: nat, check: Bytes -> bool): seq<Bytes> {
    if |records| <= room then records + Records(tail, room - |records|, check) else records[..room]
  }

  lemma YieldOne(records: seq<Bytes>, tail: Bytes, room: nat, check: Bytes -> bool)
    requires records != [] && room > 0
    ensures Yield(records, tail, room, check) == [records[0]] + Yield(records[1..], tail, room - 1, check)
  {
    HeadTail(records, []);
    if |records| <= room {
      Reassociate([records[0]], records[1..], Records(tail, room - |records|, check));
    } else {
      HeadTail(records[..room], []);
      assert records[..room][1..] == records[1..][..room - 1];
    }
  }

  ghost predicate Yields(records: seq<Bytes>, tail: Bytes, room: nat, check: Bytes -> bool) {
    Records(Lines(records) + tail, room, check) == Yield(records, tail, room, check)
  }

  lemma LineThenRest(records: seq<Bytes>, tail: Bytes, room: nat, check: Bytes -> bool)
    requires Sound(records, check) && records != [] && room > 0 && Yields(records[1..], tail, room - 1, check)
    ensures Yields(records, tail, room, check)
  {
    AllLines(records, tail);
    OneLine(records[0], Lines(records[1..]) + tail, room, check);
    YieldOne(records, tail, room, check);
  }

  lemma NoMoreLines(records: seq<Bytes>, tail: Bytes, room: nat, check: Bytes -> bool)
    requires records == [] || room == 0
    ensures Yields(records, tail, room, check)
  {
    if records == [] {
      Nothing(tail);
      Nothing(Records(tail, room, check));
    }
  }

  lemma SoundTail(records: seq<Bytes>, check: Bytes -> bool)
    requires Sound(records, check) && records != []
    ensures Sound(records[1..], check)
  {
  }

  lemma {:induction false} LinesYield(records: seq<Bytes>, tail: Bytes, room: nat, check: Bytes -> bool)
    requires Sound(records, check)
    ensures Yields(records, tail, room, check)
    decreases |records|
  {
    if records == [] || room == 0 {
      NoMoreLines(records, tail, room, check);
      return;
    }
    SoundTail(records, check);
    LinesYield(records[1..], tail, room - 1, check);
    LineThenRest(records, tail, room, check);
  }

  lemma HeadOfTorn(data: Bytes, cut: nat, check: Bytes -> bool)
    requires cut <= |data| && Head(data[..cut], check).Some?
    ensures var record := Head(data[..cut], check).value;
            && Head(data, check) == Some(record) && 4 + |record| <= cut
            && data[..cut][4 + |record|..] == data[4 + |record|..][..cut - 4 - |record|]
  {
    var torn := data[..cut];
    assert torn[0..4] == data[0..4];
    var size := Field(data, 0, 4);
    assert size <= cut - 4;
    assert torn[4..4 + size] == data[4..4 + size];
    assert torn[4 + size..] == data[4 + size..][..cut - 4 - size];
  }

  ghost predicate Prefix(cut: Bytes, data: Bytes, room: nat, check: Bytes -> bool) {
    Records(cut, room, check) <= Records(data, room, check)
  }

  lemma TornHead(cut: Bytes, data: Bytes, room: nat, check: Bytes -> bool)
    requires room == 0 || Head(cut, check).None?
    ensures Prefix(cut, data, room, check)
  {
  }

  lemma TornOne(cut: Bytes, data: Bytes, room: nat, check: Bytes -> bool, record: Bytes)
    requires room > 0 && Head(cut, check) == Some(record) && Head(data, check) == Some(record)
    requires 4 + |record| <= |cut| <= |data| && Prefix(cut[4 + |record|..], data[4 + |record|..], room - 1, check)
    ensures Prefix(cut, data, room, check)
  {
  }

  /** A file cut anywhere yields a prefix of what the whole file yields. */
  lemma {:induction false} TornTail(data: Bytes, cut: nat, room: nat, check: Bytes -> bool)
    requires cut <= |data|
    ensures Prefix(data[..cut], data, room, check)
    decreases room
  {
    if room == 0 || Head(data[..cut], check).None? {
      TornHead(data[..cut], data, room, check);
      return;
    }
    HeadOfTorn(data, cut, check);
    var record := Head(data[..cut], check).value;
    TornTail(data[4 + |record|..], cut - 4 - |record|, room - 1, check);
    TornOne(data[..cut], data, room, check, record);
  }

  lemma {:induction false} LinesAppend(records: seq<Bytes>, record: Bytes)
    ensures Lines(records + [record]) == Lines(records) + Line(record)
  {
    if records == [] {
      Nothing([record]);
      assert [record][1..] == [];
      Nothing(Line(record));
    } else {
      assert (records + [record])[1..] == records[1..] + [record];
      LinesAppend(records[1..], record);
      Reassociate(Line(records[0]), Lines(records[1..]), Line(record));
    }
  }

  // ----- The profile of this program -----

  predicate Accepted(record: Bytes) { LibraryRecords.DecodeRecord(record).Some? }

  /** The parsing loop of lupine_library_batch_start. */
  method ParseProfile(data: Bytes) returns (entries: seq<Bytes>)
    ensures entries == Records(data, MAX_ENTRIES, Accepted)
  {
    entries := ParseRecords(data, MAX_ENTRIES, Accepted);
  }

  /** Recorded lines come back: the first 4096 of them; and if the file is cut anywhere,
      or goes on with anything, the whole lines before that still do. */
  lemma ProfileRoundTrip(records: seq<Bytes>, tail: Bytes, limit: nat)
    requires Sound(records, Accepted)
    ensures Records(Lines(records), limit, Accepted) == First(records, limit)
    ensures First(records, limit) <= Records(Lines(records) + tail, limit, Accepted)
  {
    LinesYield(records, [], limit, Accepted);
    LinesYield(records, tail, limit, Accepted);
    Nothing(Lines(records));
    Nothing(records);
  }

  /** How many of the records, from the first one on, have a length the prefix can hold
      and pass the check. */
  function Readable(records: seq<Bytes>): (n: nat)
    ensures n <= |records|
  {
    if records == [] || |records[0]| >= Power(4) || !Accepted(records[0]) then 0 else 1 + Readable(records[1..])
  }

  lemma {:induction false} ReadableIsSound(records: seq<Bytes>)
    ensures Sound(records[..Readable(records)], Accepted)
    ensures Readable(records) < |records| ==>
              |records[Readable(records)]| >= Power(4) || !Accepted(records[Readable(records)])
  {
    if Readable(records) > 0 {
      ReadableIsSound(records[1..]);
      var n := Readable(records[1..]);
      forall i | 0 <= i < n + 1
        ensures |records[i]| < Power(4) && Accepted(records[i])
      {
        if i > 0 { assert records[1..][..n][i - 1] == records[i]; }
      }
    }
  }

  lemma {:induction false} LinesSplit(records: seq<Bytes>, n: nat)
    requires n <= |records|
    ensures Lines(records) == Lines(records[..n]) + Lines(records[n..])
  {
    if n == 0 {
      Whole(records);
      Nothing(Lines(records));
    } else {
      LinesSplit(records[1..], n - 1);
      assert records[..n][1..] == records[1..][..n - 1] && records[1..][n - 1..] == records[n..];
      Reassociate(Line(records[0]), Lines(records[1..][..n - 1]), Lines(records[n..]));
    }
  }

  lemma RefusedLine(record: Bytes, rest: Bytes, room: nat)
    requires |record| < Power(4) && !Accepted(record)
    ensures Records(Line(record) + rest, room, Accepted) == []
  {
    var data := Line(record) + rest;
    assert data[0..4] == Encode(|record|, 4);
    RoundTrip(|record|, 4);
    assert data[4..4 + |record|] == record;
  }

  /** Whatever was recorded, the lines before the first unreadable one come back, and
      nothing else does unless that one is too long for its length prefix. */
  lemma ReadableComesBack(records: seq<Bytes>, limit: nat)
    ensures var n := Readable(records);
            && First(records[..n], limit) <= Records(Lines(records), limit, Accepted)
            && (n == |records| || |records[n]| < Power(4) ==>
                  Records(Lines(records), limit, Accepted) == First(records[..n], limit))
  {
    var n := Readable(records);
    ReadableIsSound(records);
    LinesSplit(records, n);
    LinesYield(records[..n], Lines(records[n..]), limit, Accepted);
    if n < |records| && |records[n]| < Power(4) && n <= limit {
      RefusedLine(records[n], Lines(records[n..][1..]), limit - n);
    }
  }

  /** What is read passed the check and has a length its prefix can hold. */
  lemma {:induction false} ReadIsSound(data: Bytes, room: nat)
    ensures Sound(Records(data, room, Accepted), Accepted)
    decreases |data|
  {
    if room > 0 && Head(data, Accepted).Some? {
      var record := Head(data, Accepted).value;
      DecodeBound(data[0..4]);
      ReadIsSound(data[4 + |record|..], room - 1);
    }
  }

  /** What was recorded comes back, up to the limit, if and only if no record among those
      fails the check or is too long for its length prefix. */
  lemma RecordedComesBack(records: seq<Bytes>, limit: nat)
    ensures Records(Lines(records), limit, Accepted) == First(records, limit) <==>
            Readable(records) == |records| || limit <= Readable(records)
  {
    var n := Readable(records);
    ReadableIsSound(records);
    if n == |records| || limit <= n {
      LinesSplit(records, n);
      LinesYield(records[..n], Lines(records[n..]), limit, Accepted);
      EnoughLines(records, n, limit);
    } else {
      ReadIsSound(Lines(records), limit);
      assert First(records, limit)[n] == records[n];
    }
  }

  lemma EnoughLines(records: seq<Bytes>, n: nat, limit: nat)
    requires n <= |records| && (n == |records| || limit <= n)
    ensures Yield(records[..n], Lines(records[n..]), limit, Accepted) == First(records, limit)
  {
    if n == |records| {
      assert records[..n] == records && records[n..] == [];
      Nothing(records);
    } else {
      assert records[..n][..limit] == records[..limit];
      Nothing(records[..n]);
    }
  }

  /** A record too long for its prefix never comes back, whatever file it is looked for in. */
  lemma OutgrownIsLost(record: Bytes, data: Bytes, room: nat)
    requires |record| >= Power(4)
    ensures record !in Records(data, room, Accepted)
  {
    ReadIsSound(data, room);
  }

  /** An image with so many options that its record outgrows the prefix of its line. */
  const MANY: nat := 0x1600_0000

  const IMAGE := LibraryRecords.Reference([1], 0, LibraryRecords.HEADER, 0)

  lemma ManyOptions(options: seq<nat>, values: seq<nat>)
    requires LibraryRecords.Typed(IMAGE, options, values) && |options| == MANY
    ensures var record := LibraryRecords.Record(IMAGE, options, values);
            Accepted(record) && |record| >= Power(4)
  {
    LibraryRecords.DecodeOfRecord(IMAGE, options, values);
    LibraryRecords.RecordFields(IMAGE, options, values);
    Powers();
  }

  lemma Zeros() returns (zeros: seq<nat>)
    ensures |zeros| == MANY && LibraryRecords.Typed(IMAGE, zeros, zeros)
  {
    zeros := seq(MANY, _ => 0);
    Powers();
  }

  /** There are such records that pass the check: a profile of that one line yields
      something else. */
  lemma AcceptedRecordIsLost() returns (record: Bytes)
    ensures Accepted(record) && |record| >= Power(4)
    ensures Records(Lines([record]), MAX_ENTRIES, Accepted) != [record]
  {
    var zeros := Zeros();
    record := LibraryRecords.Record(IMAGE, zeros, zeros);
    ManyOptions(zeros, zeros);
    OutgrownIsLost(record, Lines([record]), MAX_ENTRIES);
  }

  /** The lines of this run, and the file they are written to as a whole. */
  class Profile {
    var lines: Bytes
    var file: Bytes
    ghost var recorded: seq<Bytes>

    ghost predicate Valid()
      reads this
    {
      file == lines == Lines(recorded)
    }

    constructor ()
      ensures Valid() && recorded == []
    {
      lines, file, recorded := [], [], [];
    }

    /** lupine_library_profile_record. */
    method Add(record: Bytes)
      requires Valid()
      modifies this
      ensures Valid() && recorded == old(recorded) + [record]
    {
      LinesAppend(recorded, record);
      recorded := recorded + [record];
      lines := lines + (Encode(|record|, 4) + record);
      file := lines;
    }

    /** The next run reads back what this one recorded. */
    method Reload() returns (entries: seq<Bytes>)
      requires Valid()
      ensures var n := Readable(recorded);
              && First(recorded[..n], MAX_ENTRIES) <= entries
              && (n == |recorded| || |recorded[n]| < Power(4) ==> entries == First(recorded[..n], MAX_ENTRIES))
    {
      ReadableComesBack(recorded, MAX_ENTRIES);
      entries := ParseProfile(file);
    }
  }
}
