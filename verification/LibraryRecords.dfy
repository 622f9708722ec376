/** A library image as the profile of earlier runs names it (cuda_client.cpp): the
    record of one image, and the check before a record goes on the wire. */
module LibraryRecords {
  import opened LittleEndian
  import opened Options

  type Bytes = seq<Byte>

  /** An image: the build-id of the object it lies in, its place there, and its kind. */
  datatype Reference = Reference(id: Bytes, offset: nat, size: nat, kind: nat)

  const HEADER: nat := 16
  const ONES: nat := 0xffff_ffff_ffff_ffff

  // ----- Words -----

  function Words(values: seq<nat>, width: nat): Bytes {
    if values == [] then [] else Words(values[..|values| - 1], width) + Encode(values[|values| - 1], width)
  }

  predicate Fit(values: seq<nat>, width: nat) { forall i :: 0 <= i < |values| ==> values[i] < Power(width) }

  lemma {:induction false} WordsLength(values: seq<nat>, width: nat)
    ensures |Words(values, width)| == |values| * width
  {
    if values != [] {
      var n := |values| - 1;
      WordsLength(values[..n], width);
      assert |values| * width == n * width + width;
    }
  }

  /** Words of one width are told apart. */
  lemma {:induction false} WordsInjective(a: seq<nat>, b: seq<nat>, width: nat)
    requires |a| == |b| && Fit(a, width) && Fit(b, width) && Words(a, width) == Words(b, width)
    ensures a == b
  {
    if a != [] {
      var n := |a| - 1;
      WordsLength(a[..n], width);
      WordsLength(b[..n], width);
      SplitEqual(Words(a[..n], width), Encode(a[n], width), Words(b[..n], width), Encode(b[n], width));
      WordsInjective(a[..n], b[..n], width);
      RoundTrip(a[n], width);
      RoundTrip(b[n], width);
      assert a == a[..n] + [a[n]] && b == b[..n] + [b[n]];
    }
  }

  lemma SplitEqual(a: Bytes, b: Bytes, c: Bytes, d: Bytes)
    requires a + b == c + d && |a| == |c|
    ensures a == c && b == d
  {
    assert a == (a + b)[..|a|] && c == (c + d)[..|c|];
    assert b == (a + b)[|a|..] && d == (c + d)[|c|..];
  }

  lemma OneMoreWord(older: seq<nat>, s: Bytes, last: Bytes)
    requires Fit(older, |last|) && Words(older, |last|) == s
    ensures Fit(older + [Decode(last)], |last|) && Words(older + [Decode(last)], |last|) == s + last
  {
    var values := older + [Decode(last)];
    DecodeBound(last);
    EncodeDecode(last);
    assert values[..|older|] == older;
  }

  /** Any bytes of the right number are words. */
  lemma {:induction false} WordsExist(s: Bytes, count: nat, width: nat) returns (values: seq<nat>)
    requires |s| == count * width
    ensures |values| == count && Fit(values, width) && Words(values, width) == s
    decreases count
  {
    if count == 0 {
      values := [];
    } else {
      Less(count, width);
      var cut := (count - 1) * width;
      values := WordsExist(s[..cut], count - 1, width);
      OneMoreWord(values, s[..cut], s[cut..]);
      Join(s, cut);
      values := values + [Decode(s[cut..])];
    }
  }

  lemma Less(count: nat, width: nat)
    requires count > 0
    ensures count * width == (count - 1) * width + width && (count - 1) * width >= 0
  {
  }

  lemma Join(s: Bytes, cut: nat)
    requires cut <= |s|
    ensures s[..cut] + s[cut..] == s
  {
  }

  // ----- Records -----

  /** Without a value array each option stands in for its value by its complement. */
  function Values(options: seq<nat>, values: Option<seq<nat>>): seq<nat>
    requires Fit(options, 8) && (values.Some? ==> |values.value| == |options|)
  {
    Powers();
    match values
    case Some(given) => given
    case None => seq(|options|, i requires 0 <= i < |options| => ONES - options[i])
  }

  /** The id with the length one byte can hold. */
  function KeptId(id: Bytes): Bytes { id[..|id| % 256] }

  /** Everything before the options. */
  function Prefix(r: Reference, count: nat): (p: Bytes)
    ensures |p| == 25 + |r.id| % 256
  {
    Encode(r.kind, 4) + Encode(r.size, 8) + [|r.id| % 256] + KeptId(r.id) + Encode(r.offset, 8) + Encode(count, 4)
  }

  function Record(r: Reference, options: seq<nat>, values: seq<nat>): Bytes {
    Prefix(r, |options|) + Words(options, 4) + Words(values, 8)
  }

  /** lupine_library_reference_record. */
  method WriteRecord(r: Reference, options: seq<nat>, values: Option<seq<nat>>) returns (out: Bytes)
    requires Fit(options, 4) && Fit(options, 8) && (values.Some? ==> |values.value| == |options|)
    ensures out == Record(r, options, Values(options, values))
  {
    out := Encode(r.kind, 4);
    out := out + Encode(r.size, 8);
    out := out + [|r.id| % 256];
    out := out + r.id[..|r.id| % 256];
    out := out + Encode(r.offset, 8);
    out := out + Encode(|options|, 4);
    out := AppendWords(out, options, 4);
    var i := 0;
    ghost var all := Values(options, values);
    ghost var start := out;
    assert start + Words(all[..0], 8) == start;
    while i < |options|
      invariant i <= |options| && out == start + Words(all[..i], 8)
    {
      Powers();
      var value := if values.Some? then values.value[i] else ONES - options[i];
      WordsAppend(start, all, i, 8);
      out, i := out + Encode(value, 8), i + 1;
    }
    assert all[..i] == all;
  }

  lemma WordsAppend(start: Bytes, values: seq<nat>, i: nat, width: nat)
    requires i < |values|
    ensures start + Words(values[..i + 1], width) == start + Words(values[..i], width) + Encode(values[i], width)
  {
    assert values[..i + 1][..i] == values[..i];
  }

  method AppendWords(start: Bytes, values: seq<nat>, width: nat) returns (out: Bytes)
    ensures out == start + Words(values, width)
  {
    out := start;
    assert start + Words(values[..0], width) == start;
    for i := 0 to |values|
      invariant out == start + Words(values[..i], width)
    {
      WordsAppend(start, values, i, width);
      out := out + Encode(values[i], width);
    }
    assert values[..|values|] == values;
  }

  /** lupine_library_reference_decode. */
  function DecodeRecord(record: Bytes): Option<Reference> {
    if |record| < 21 then None
    else
      var idSize: nat := record[12];
      var at := 21 + idSize;
      if |record| < at + 4 then None
      else
        var size := Field(record, 4, 8);
        if idSize == 0 || size < HEADER || at + 4 + Field(record, at, 4) * 12 != |record| then None
        else Some(Reference(record[13..13 + idSize], Field(record, 13 + idSize, 8), size, Field(record, 0, 4)))
  }

  /** The fields have the widths the source gives them. */
  predicate Typed(r: Reference, options: seq<nat>, values: seq<nat>) {
    && r.kind < Power(4) && r.size < Power(8) && r.offset < Power(8)
    && |options| == |values| < Power(4) && Fit(options, 4) && Fit(values, 8)
  }

  /** Where the eight parts of a record lie. */
  lemma Parts(a: Bytes, b: Bytes, c: Bytes, d: Bytes, e: Bytes, f: Bytes, g: Bytes, h: Bytes)
    requires |a| == 4 && |b| == 8 && |c| == 1 && |e| == 8 && |f| == 4
    ensures var r := a + b + c + d + e + f + g + h;
            && |r| == 25 + |d| + |g| + |h|
            && r[0..4] == a && r[4..12] == b && r[12] == c[0] && r[13..13 + |d|] == d
            && r[13 + |d|..21 + |d|] == e && r[21 + |d|..25 + |d|] == f
            && r[25 + |d|..25 + |d| + |g|] == g && r[25 + |d| + |g|..] == h
  {
  }

  lemma RecordFields(r: Reference, options: seq<nat>, values: seq<nat>)
    requires Typed(r, options, values)
    ensures var record := Record(r, options, values);
            var n := |r.id| % 256;
            && |record| == 25 + n + |options| * 12 && record[12] == n && record[13..13 + n] == KeptId(r.id)
            && Field(record, 0, 4) == r.kind && Field(record, 4, 8) == r.size
            && Field(record, 13 + n, 8) == r.offset && Field(record, 21 + n, 4) == |options|
  {
    Parts(Encode(r.kind, 4), Encode(r.size, 8), [|r.id| % 256], KeptId(r.id), Encode(r.offset, 8),
          Encode(|options|, 4), Words(options, 4), Words(values, 8));
    WordsLength(options, 4);
    WordsLength(values, 8);
    RoundTrip(r.kind, 4);
    RoundTrip(r.size, 8);
    RoundTrip(r.offset, 8);
    RoundTrip(|options|, 4);
  }

  /** What comes back from a record, in every case; */
  lemma DecodeOfRecord(r: Reference, options: seq<nat>, values: seq<nat>)
    requires Typed(r, options, values)
    ensures DecodeRecord(Record(r, options, values)) ==
            if |r.id| % 256 != 0 && r.size >= HEADER then Some(r.(id := KeptId(r.id))) else None
  {
    RecordFields(r, options, values);
  }

  /** so the image itself comes back exactly when its id has 1 to 255 bytes and it can
      hold a fat binary's header. */
  lemma RecordRoundTrip(r: Reference, options: seq<nat>, values: seq<nat>)
    requires Typed(r, options, values)
    ensures DecodeRecord(Record(r, options, values)) == Some(r) <==> 1 <= |r.id| <= 255 && r.size >= HEADER
  {
    DecodeOfRecord(r, options, values);
    if 1 <= |r.id| <= 255 {
      assert KeptId(r.id) == r.id;
    } else if |r.id| > 255 {
      assert |KeptId(r.id)| < |r.id|;
    }
  }

  /** What passes the check is a whole record: as many options and values as it says,
      and nothing after them. */
  lemma AcceptedIsARecord(record: Bytes) returns (options: seq<nat>, values: seq<nat>)
    requires DecodeRecord(record).Some?
    ensures Typed(DecodeRecord(record).value, options, values)
    ensures Record(DecodeRecord(record).value, options, values) == record
  {
    var n: nat := record[12];
    var count := Field(record, 21 + n, 4);
    var middle := 25 + n + count * 4;
    options := WordsExist(record[25 + n..middle], count, 4);
    values := WordsExist(record[middle..], count, 8);
    Powers();
    PrefixOfRecord(record, n, count);
    Join(record[..middle], 25 + n);
    Join(record, middle);
    Slices(record, 25 + n, middle);
  }

  lemma Slices(s: Bytes, a: nat, b: nat)
    requires a <= b <= |s|
    ensures s[..b][..a] == s[..a] && s[..b][a..] == s[a..b]
  {
  }

  lemma PrefixOfRecord(record: Bytes, n: nat, count: nat)
    requires 25 + n <= |record| && n < 256 && n == record[12] && count == Field(record, 21 + n, 4)
    ensures var r := Reference(record[13..13 + n], Field(record, 13 + n, 8), Field(record, 4, 8), Field(record, 0, 4));
            && Prefix(r, count) == record[..25 + n]
            && r.kind < Power(4) && r.size < Power(8) && r.offset < Power(8) && count < Power(4)
  {
    FieldEncodes(record, 0, 4);
    FieldEncodes(record, 4, 8);
    FieldEncodes(record, 13 + n, 8);
    FieldEncodes(record, 21 + n, 4);
    assert KeptId(record[13..13 + n]) == record[13..13 + n];
    Whole(record[..25 + n], n);
    Inner(record, n);
  }

  lemma Inner(s: Bytes, n: nat)
    requires 25 + n <= |s|
    ensures var p := s[..25 + n];
            && p[0..4] == s[0..4] && p[4..12] == s[4..12] && p[12] == s[12] && p[13..13 + n] == s[13..13 + n]
            && p[13 + n..21 + n] == s[13 + n..21 + n] && p[21 + n..] == s[21 + n..25 + n]
  {
  }

  lemma FieldEncodes(s: Bytes, at: nat, width: nat)
    requires at + width <= |s|
    ensures Field(s, at, width) < Power(width) && Encode(Field(s, at, width), width) == s[at..at + width]
  {
    DecodeBound(s[at..at + width]);
    EncodeDecode(s[at..at + width]);
  }

  lemma Whole(p: Bytes, n: nat)
    requires |p| == 25 + n
    ensures p == p[0..4] + p[4..12] + [p[12]] + p[13..13 + n] + p[13 + n..21 + n] + p[21 + n..]
  {
  }

  /** Claims compare whole records. Equal records mean the same image with the same
      options and values, where a missing value array counts as the complements. */
  lemma ClaimIsExact(r: Reference, options: seq<nat>, values: seq<nat>,
                     r': Reference, options': seq<nat>, values': seq<nat>)
    requires Typed(r, options, values) && Typed(r', options', values')
    requires |r.id| <= 255 && |r'.id| <= 255
    ensures Record(r, options, values) == Record(r', options', values') <==>
            r == r' && options == options' && values == values'
  {
    if Record(r, options, values) == Record(r', options', values') {
      RecordFields(r, options, values);
      RecordFields(r', options', values');
      assert KeptId(r.id) == r.id && KeptId(r'.id) == r'.id;
      SameTails(r, options, values, r', options', values');
      WordsInjective(options, options', 4);
      WordsInjective(values, values', 8);
    }
  }

  lemma SameTails(r: Reference, options: seq<nat>, values: seq<nat>,
                  r': Reference, options': seq<nat>, values': seq<nat>)
    requires |r.id| % 256 == |r'.id| % 256 && |options| == |options'|
    requires Record(r, options, values) == Record(r', options', values')
    ensures Words(options, 4) == Words(options', 4) && Words(values, 8) == Words(values', 8)
  {
    WordsLength(options, 4);
    WordsLength(options', 4);
    var p, p' := Prefix(r, |options|), Prefix(r', |options'|);
    SplitEqual(p + Words(options, 4), Words(values, 8), p' + Words(options', 4), Words(values', 8));
    SplitEqual(p, Words(options, 4), p', Words(options', 4));
  }
}
