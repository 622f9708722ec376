/** Filtering a fat binary to the members that may serve the devices of a server
    (fatbin_filter.h), and the client's test whether an image may serve a device
    (cuda_client.cpp). The container layout is that of lupine_fatbin.h. */
module FatbinFilter {
  import opened LittleEndian
  import opened Options
  import opened Sequences

  const MAGIC: nat := 0xba55ed50
  const VERSION: nat := 1
  const ENTRY_VERSION: nat := 0x0101
  const PTX: nat := 1
  const CUBIN: nat := 2
  const HEADER: nat := 16
  const ENTRY: nat := 32

  type Image = seq<Byte>

  // ----- Members -----

  /** The fields of an entry that begins `m`. */
  function Kind(m: Image): nat
    requires |m| >= ENTRY
  {
    Field(m, 0, 2)
  }

  function EntryVersion(m: Image): nat
    requires |m| >= ENTRY
  {
    Field(m, 2, 2)
  }

  function EntryHeader(m: Image): nat
    requires |m| >= ENTRY
  {
    Field(m, 4, 4)
  }

  function Payload(m: Image): nat
    requires |m| >= ENTRY
  {
    Field(m, 8, 8)
  }

  function Arch(m: Image): nat
    requires |m| >= ENTRY
  {
    Field(m, 28, 4)
  }

  function Length(m: Image): nat
    requires |m| >= ENTRY
  {
    EntryHeader(m) + Payload(m)
  }

  /** The entry that begins `body` is complete and understood. */
  predicate Understood(body: Image) {
    && |body| >= ENTRY
    && EntryVersion(body) == ENTRY_VERSION
    && ENTRY <= EntryHeader(body) <= |body|
    && Payload(body) <= |body| - EntryHeader(body)
    && Arch(body) != 0
    && (Kind(body) == CUBIN || Kind(body) == PTX)
  }

  predicate Member(m: Image) { Understood(m) && Length(m) == |m| }

  predicate Usable(m: Image, device: nat)
    requires |m| >= ENTRY
  {
    if Kind(m) == PTX then Arch(m) <= device else Arch(m) / 10 == device / 10 && Arch(m) <= device
  }

  /** The members a body is packed from, if it is nothing else. */
  function Parse(body: Image): Option<seq<Image>>
    decreases |body|
  {
    if body == [] then Some([])
    else if !Understood(body) then None
    else
      match Parse(body[Length(body)..])
      case None => None
      case Some(rest) => Some([body[..Length(body)]] + rest)
  }

  predicate Members(ms: seq<Image>) {
    forall i :: 0 <= i < |ms| ==> Member(ms[i])
  }

  function Concat(ms: seq<Image>): Image {
    if ms == [] then [] else ms[0] + Concat(ms[1..])
  }

  /** The entry prefix alone decides the fields. */
  lemma SamePrefix(a: Image, b: Image)
    requires |a| >= ENTRY && |b| >= ENTRY && a[..ENTRY] == b[..ENTRY]
    ensures Kind(a) == Kind(b) && EntryVersion(a) == EntryVersion(b) && EntryHeader(a) == EntryHeader(b)
    ensures Payload(a) == Payload(b) && Arch(a) == Arch(b)
  {
    assert a[0..2] == a[..ENTRY][0..2] == b[0..2];
    assert a[2..4] == a[..ENTRY][2..4] == b[2..4];
    assert a[4..8] == a[..ENTRY][4..8] == b[4..8];
    assert a[8..16] == a[..ENTRY][8..16] == b[8..16];
    assert a[28..32] == a[..ENTRY][28..32] == b[28..32];
  }

  lemma HeadIsMember(body: Image)
    requires Understood(body)
    ensures ENTRY <= Length(body) <= |body| && Member(body[..Length(body)])
    ensures forall device :: Usable(body[..Length(body)], device) == Usable(body, device)
  {
    var m := body[..Length(body)];
    assert m[..ENTRY] == body[..ENTRY];
    SamePrefix(m, body);
  }

  /** Parsing finds exactly the members and loses no byte. */
  lemma {:induction false} ParseSound(body: Image)
    requires Parse(body).Some?
    ensures Members(Parse(body).value) && Concat(Parse(body).value) == body
    decreases |body|
  {
    if body != [] {
      HeadIsMember(body);
      ParseSound(body[Length(body)..]);
      var ms := Parse(body).value;
      assert ms[1..] == Parse(body[Length(body)..]).value;
      assert body == body[..Length(body)] + body[Length(body)..];
    }
  }

  // ----- Packing -----

  lemma ParseMember(m: Image, rest: Image)
    requires Member(m)
    ensures Parse(m + rest) == match Parse(rest) case None => None case Some(more) => Some([m] + more)
  {
    var body := m + rest;
    assert body[..ENTRY] == m[..ENTRY];
    SamePrefix(body, m);
    assert body[Length(body)..] == rest && body[..Length(body)] == m;
  }

  /** And members put together parse to themselves, whatever follows them. */
  lemma {:induction false} ParseConcat(ms: seq<Image>, rest: Image)
    requires Members(ms)
    ensures Parse(Concat(ms) + rest) ==
            match Parse(rest) case None => None case Some(more) => Some(ms + more)
    decreases |ms|
  {
    if ms == [] {
      Nothing(rest);
      if Parse(rest).Some? { Nothing(Parse(rest).value); }
    } else {
      Reassociate(ms[0], Concat(ms[1..]), rest);
      ParseMember(ms[0], Concat(ms[1..]) + rest);
      ParseConcat(ms[1..], rest);
      if Parse(rest).Some? { HeadTail(ms, Parse(rest).value); }
    }
  }

  lemma {:induction false} ConcatAppend(ms: seq<Image>, m: Image)
    ensures Concat(ms + [m]) == Concat(ms) + m
  {
    if ms == [] {
      assert ms + [m] == [m];
      assert [m][1..] == [];
    } else {
      assert (ms + [m])[1..] == ms[1..] + [m];
      ConcatAppend(ms[1..], m);
    }
  }

  // ----- Containers -----

  predicate HeaderOk(image: Image) {
    && |image| >= HEADER
    && Field(image, 0, 4) == MAGIC && Field(image, 4, 2) == VERSION
    && Field(image, 6, 2) == HEADER && Field(image, 8, 8) == |image| - HEADER
  }

  predicate WellFormed(image: Image) {
    HeaderOk(image) && Parse(image[HEADER..]).Some?
  }

  function MembersOf(image: Image): seq<Image>
    requires WellFormed(image)
  {
    Parse(image[HEADER..]).value
  }

  // ----- Selection -----

  predicate Serves(m: Image, devices: seq<nat>)
    requires |m| >= ENTRY
  {
    exists i :: 0 <= i < |devices| && Usable(m, devices[i])
  }

  /** The members that may serve some listed device, in order. */
  function Select(ms: seq<Image>, devices: seq<nat>): seq<Image>
    requires Members(ms)
  {
    if ms == [] then []
    else
      (if Serves(ms[0], devices) then [ms[0]] else []) + Select(ms[1..], devices)
  }

  lemma {:induction false} SelectMembers(ms: seq<Image>, devices: seq<nat>)
    requires Members(ms)
    ensures Members(Select(ms, devices))
    ensures forall i :: 0 <= i < |Select(ms, devices)| ==> Serves(Select(ms, devices)[i], devices)
  {
    if ms != [] { SelectMembers(ms[1..], devices); }
  }

  lemma {:induction false} SelectAppend(ms: seq<Image>, m: Image, devices: seq<nat>)
    requires Members(ms) && Member(m)
    ensures Select(ms + [m], devices) == Select(ms, devices) + if Serves(m, devices) then [m] else []
  {
    if ms == [] {
      assert ms + [m] == [m];
      assert [m][1..] == [];
    } else {
      assert (ms + [m])[1..] == ms[1..] + [m];
      SelectAppend(ms[1..], m, devices);
    }
  }

  /** Whatever is left out makes the image smaller. */
  lemma {:induction false} SelectSize(ms: seq<Image>, devices: seq<nat>)
    requires Members(ms)
    ensures |Concat(Select(ms, devices))| <= |Concat(ms)|
    ensures |Concat(Select(ms, devices))| == |Concat(ms)| <==> Select(ms, devices) == ms
  {
    if ms != [] {
      SelectSize(ms[1..], devices);
      var kept := Select(ms, devices);
      assert ms == [ms[0]] + ms[1..];
      if Serves(ms[0], devices) {
        assert kept[1..] == Select(ms[1..], devices);
      } else {
        assert kept == Select(ms[1..], devices);
      }
    }
  }

  lemma {:induction false} SelectAll(ms: seq<Image>, devices: seq<nat>)
    requires Members(ms) && forall i :: 0 <= i < |ms| ==> Serves(ms[i], devices)
    ensures Select(ms, devices) == ms
  {
    if ms != [] {
      SelectAll(ms[1..], devices);
      assert ms == [ms[0]] + ms[1..];
    }
  }

  /** For a listed device nothing it could use is lost, and the order stays. */
  lemma {:induction false} SelectKeepsUsable(ms: seq<Image>, devices: seq<nat>, device: nat)
    requires Members(ms) && device in devices
    ensures Members(Select(ms, devices)) && Select(Select(ms, devices), [device]) == Select(ms, [device])
  {
    SelectMembers(ms, devices);
    if ms != [] {
      SelectKeepsUsable(ms[1..], devices, device);
      SelectMembers(ms[1..], devices);
      var kept := Select(ms, devices);
      if Serves(ms[0], devices) {
        assert kept[1..] == Select(ms[1..], devices);
      } else {
        OneDevice(ms[0], device);
        var i :| 0 <= i < |devices| && devices[i] == device;
        assert !Usable(ms[0], devices[i]);
        assert Select(ms, [device]) == [] + Select(ms[1..], [device]);
        assert kept == Select(ms[1..], devices);
      }
    }
  }

  lemma OneDevice(m: Image, device: nat)
    requires |m| >= ENTRY
    ensures Serves(m, [device]) <==> Usable(m, device)
  {
    if Usable(m, device) { assert Usable(m, [device][0]); }
  }

  // ----- The filter -----

  /** The filter has something to do: the image is understood, every device of the
      server is known, and some but not all members are kept. */
  ghost predicate Changes(image: Image, devices: seq<nat>) {
    && devices != [] && 0 !in devices && WellFormed(image)
    && Members(MembersOf(image))
    && Select(MembersOf(image), devices) != [] && Select(MembersOf(image), devices) != MembersOf(image)
  }

  function Pack(image: Image, kept: seq<Image>): Image
    requires |image| >= HEADER
  {
    image[..8] + Encode(|Concat(kept)|, 8) + Concat(kept)
  }

  lemma PackIsWellFormed(image: Image, kept: seq<Image>)
    requires WellFormed(image) && Members(kept) && |Concat(kept)| < Power(8)
    ensures WellFormed(Pack(image, kept)) && MembersOf(Pack(image, kept)) == kept
  {
    var out := Pack(image, kept);
    RoundTrip(|Concat(kept)|, 8);
    assert out[0..4] == image[0..4] && out[4..6] == image[4..6] && out[6..8] == image[6..8];
    assert out[8..16] == Encode(|Concat(kept)|, 8);
    assert out[HEADER..] == Concat(kept) + [];
    ParseConcat(kept, []);
    assert kept + [] == kept;
  }

  datatype Span = Span(offset: nat, size: nat)

  predicate SpansFit(image: Image, spans: seq<Span>) {
    forall i :: 0 <= i < |spans| ==> spans[i].offset + spans[i].size <= |image|
  }

  function Slices(image: Image, spans: seq<Span>): seq<Image>
    requires SpansFit(image, spans)
  {
    seq(|spans|, i requires 0 <= i < |spans| => image[spans[i].offset..spans[i].offset + spans[i].size])
  }

  /** How far the walk has come: `done` is what it has read, `kept` what it keeps. */
  ghost predicate Walked(image: Image, devices: seq<nat>, at: nat, done: seq<Image>, kept: seq<Span>, size: nat) {
    && HEADER <= at <= |image| && SpansFit(image, kept) && Members(done)
    && image[HEADER..] == Concat(done) + image[at..]
    && Slices(image, kept) == Select(done, devices)
    && size == HEADER + |Concat(Slices(image, kept))|
  }

  /** The walk over the entries. */
  method KeptSpans(image: Image, devices: seq<nat>) returns (ok: bool, kept: seq<Span>, size: nat)
    requires HeaderOk(image)
    ensures ok <==> WellFormed(image)
    ensures ok ==> Members(MembersOf(image)) && Walked(image, devices, |image|, MembersOf(image), kept, size)
  {
    kept, size := [], HEADER;
    var at := HEADER;
    ghost var done: seq<Image> := [];
    while at < |image|
      invariant Walked(image, devices, at, done, kept, size)
      decreases |image| - at
    {
      var body := image[at..];
      if !Understood(body) {
        Stuck(image, devices, at, done, kept, size);
        return false, kept, size;
      }
      Advance(image, devices, at, done, kept, size);
      if Serves(body, devices) {
        kept, size := kept + [Span(at, Length(body))], size + Length(body);
      }
      done, at := done + [image[at..at + Length(body)]], at + Length(body);
    }
    Finish(image, devices, done, kept, size);
    ok := true;
  }

  lemma Stuck(image: Image, devices: seq<nat>, at: nat, done: seq<Image>, kept: seq<Span>, size: nat)
    requires HeaderOk(image) && Walked(image, devices, at, done, kept, size) && at < |image|
    requires !Understood(image[at..])
    ensures !WellFormed(image)
  {
    ParseConcat(done, image[at..]);
  }

  lemma Finish(image: Image, devices: seq<nat>, done: seq<Image>, kept: seq<Span>, size: nat)
    requires HeaderOk(image) && Walked(image, devices, |image|, done, kept, size)
    ensures WellFormed(image) && MembersOf(image) == done
  {
    ParseConcat(done, []);
    Nothing(done);
    assert image[|image|..] == [];
  }

  lemma Advance(image: Image, devices: seq<nat>, at: nat, done: seq<Image>, kept: seq<Span>, size: nat)
    requires Walked(image, devices, at, done, kept, size) && Understood(image[at..])
    ensures var length := Length(image[at..]);
            var more := done + [image[at..at + length]];
            if Serves(image[at..], devices)
            then Walked(image, devices, at + length, more, kept + [Span(at, length)], size + length)
            else Walked(image, devices, at + length, more, kept, size)
  {
    var body := image[at..];
    var length := Length(body);
    var m := image[at..at + length];
    HeadIsMember(body);
    Split(image, at, length);
    ReadOne(image, done, at, length);
    KeepOne(image, kept, at, length);
    SelectAppend(done, m, devices);
    SameServes(m, body, devices);
    Nothing(Select(done, devices));
  }

  lemma SameServes(a: Image, b: Image, devices: seq<nat>)
    requires |a| >= ENTRY && |b| >= ENTRY && a[..ENTRY] == b[..ENTRY]
    ensures Serves(a, devices) <==> Serves(b, devices)
  {
    SamePrefix(a, b);
  }

  /** One more entry read, */
  lemma ReadOne(image: Image, done: seq<Image>, at: nat, length: nat)
    requires HEADER <= at && at + length <= |image| && image[HEADER..] == Concat(done) + image[at..]
    ensures image[HEADER..] == Concat(done + [image[at..at + length]]) + image[at + length..]
  {
    ConcatAppend(done, image[at..at + length]);
    Split(image, at, length);
    Reassociate(Concat(done), image[at..at + length], image[at + length..]);
  }

  /** one more span kept, */
  lemma KeepOne(image: Image, kept: seq<Span>, at: nat, length: nat)
    requires SpansFit(image, kept) && at + length <= |image|
    ensures SpansFit(image, kept + [Span(at, length)])
    ensures Slices(image, kept + [Span(at, length)]) == Slices(image, kept) + [image[at..at + length]]
    ensures |Concat(Slices(image, kept + [Span(at, length)]))| == |Concat(Slices(image, kept))| + length
  {
    assert Slices(image, kept + [Span(at, length)]) == Slices(image, kept) + [image[at..at + length]];
    ConcatAppend(Slices(image, kept), image[at..at + length]);
  }

  /** The kept bytes behind one another. */
  method Assemble(header: Image, image: Image, kept: seq<Span>) returns (selected: Image)
    requires SpansFit(image, kept)
    ensures selected == header + Concat(Slices(image, kept))
  {
    selected := header;
    ghost var slices := Slices(image, kept);
    Nothing(header);
    for n := 0 to |kept|
      invariant selected == header + Concat(slices[..n])
    {
      Last(slices, n);
      ConcatAppend(slices[..n], slices[n]);
      Reassociate(header, Concat(slices[..n]), slices[n]);
      selected := selected + image[kept[n].offset..kept[n].offset + kept[n].size];
    }
    assert slices[..|kept|] == slices;
  }

  /** lupine_filter_fatbin; an empty result means that the image goes unchanged. */
  method FilterFatbin(image: Image, devices: seq<nat>) returns (selected: Image)
    requires |image| < Power(8)
    ensures selected != [] <==> Changes(image, devices)
    ensures Changes(image, devices) ==> selected == Pack(image, Select(MembersOf(image), devices))
  {
    if |image| < HEADER || devices == [] || 0 in devices || !HeaderOk(image) {
      return [];
    }
    var ok, kept, size := KeptSpans(image, devices);
    if !ok {
      return [];
    }
    KeptSize(image, devices);
    if kept == [] || size == |image| {
      return [];
    }
    selected := Assemble(image[..8] + Encode(size - HEADER, 8), image, kept);
  }

  lemma KeptSize(image: Image, devices: seq<nat>)
    requires WellFormed(image) && Members(MembersOf(image))
    ensures var kept := Select(MembersOf(image), devices);
            HEADER + |Concat(kept)| == |image| <==> kept == MembersOf(image)
    ensures HEADER + |Concat(Select(MembersOf(image), devices))| <= |image|
  {
    ParseSound(image[HEADER..]);
    SelectSize(MembersOf(image), devices);
  }

  // ----- What the filter preserves -----

  /** The members a device could load, in the order the driver sees them. */
  function UsableBy(image: Image, device: nat): seq<Image>
    requires WellFormed(image) && Members(MembersOf(image))
  {
    Select(MembersOf(image), [device])
  }

  /** A filtered image is well formed, shorter, and offers every listed device the
      same members in the same order, byte for byte. */
  lemma FilterPreservesMeaning(image: Image, devices: seq<nat>, device: nat)
    requires Changes(image, devices) && device in devices && |image| < Power(8)
    ensures var out := Pack(image, Select(MembersOf(image), devices));
            && WellFormed(out) && Members(MembersOf(out)) && |out| < |image|
            && UsableBy(out, device) == UsableBy(image, device)
  {
    var kept := Select(MembersOf(image), devices);
    SelectMembers(MembersOf(image), devices);
    KeptSize(image, devices);
    PackIsWellFormed(image, kept);
    SelectKeepsUsable(MembersOf(image), devices, device);
  }

  /** Filtering twice is filtering once. */
  lemma FilterAgain(image: Image, devices: seq<nat>)
    requires Changes(image, devices) && |image| < Power(8)
    ensures !Changes(Pack(image, Select(MembersOf(image), devices)), devices)
  {
    var kept := Select(MembersOf(image), devices);
    SelectMembers(MembersOf(image), devices);
    KeptSize(image, devices);
    PackIsWellFormed(image, kept);
    SelectAll(kept, devices);
  }

  // ----- lupine_fatbin_may_serve_device -----

  /** The entry is complete but for its kind. */
  predicate Complete(body: Image) {
    && |body| >= ENTRY
    && EntryVersion(body) == ENTRY_VERSION
    && ENTRY <= EntryHeader(body) <= |body|
    && Payload(body) <= |body| - EntryHeader(body)
    && Arch(body) != 0
  }

  /** Some entry serves the device, or the walk meets something it cannot account for. */
  predicate SomeEntryServes(body: Image, device: nat)
    decreases |body|
  {
    body != [] &&
    (!Complete(body) || (Kind(body) != CUBIN && Kind(body) != PTX) || Usable(body, device)
     || SomeEntryServes(body[Length(body)..], device))
  }

  const SIZES: nat := 0x1_0000_0000_0000_0000

  /** The two sizes are added in 64 bits. */
  predicate OuterOk(image: Image) {
    && |image| >= HEADER
    && Field(image, 0, 4) == MAGIC && Field(image, 4, 2) == VERSION
    && Field(image, 6, 2) >= HEADER && (Field(image, 6, 2) + Field(image, 8, 8)) % SIZES == |image|
    && Field(image, 8, 8) != 0
  }

  /** An image whose outer header ends beyond it has no entry to look at. */
  predicate MayServe(image: Image, device: nat) {
    || !OuterOk(image)
    || (Field(image, 6, 2) <= |image| && SomeEntryServes(image[Field(image, 6, 2)..], device))
  }

  /** "Sizes that do not add up" are forwarded, that is, answered with true, except
      when the sum wraps; and it wraps exactly when the header ends beyond the image. */
  lemma SizesAddUp(image: Image)
    requires OuterOk(image)
    ensures Field(image, 6, 2) + Field(image, 8, 8) == |image| <==> Field(image, 6, 2) <= |image|
    ensures Field(image, 6, 2) > |image| ==> forall device :: !MayServe(image, device)
  {
    Powers();
    DecodeBound(image[6..8]);
    DecodeBound(image[8..16]);
    var sum := Field(image, 6, 2) + Field(image, 8, 8);
    if sum < SIZES {
      assert sum % SIZES == sum;
    } else {
      assert sum % SIZES == sum - SIZES;
    }
  }

  /** Such an image: sixteen bytes whose header claims twenty and whose files claim
      four less than nothing. */
  function WrappingImage(): Image { OuterHeader(MAGIC, VERSION, 20, SIZES - 4) }

  function OuterHeader(magic: nat, version: nat, header: nat, files: nat): Image {
    Encode(magic, 4) + Encode(version, 2) + Encode(header, 2) + Encode(files, 8)
  }

  lemma OuterFields(magic: nat, version: nat, header: nat, files: nat)
    requires magic < Power(4) && version < Power(2) && header < Power(2) && files < Power(8)
    ensures var image := OuterHeader(magic, version, header, files);
            && |image| == 16 && Field(image, 0, 4) == magic && Field(image, 4, 2) == version
            && Field(image, 6, 2) == header && Field(image, 8, 8) == files
  {
    var a, b, c, d := Encode(magic, 4), Encode(version, 2), Encode(header, 2), Encode(files, 8);
    var image := a + b + c + d;
    assert image[0..4] == a && image[4..6] == b && image[6..8] == c && image[8..16] == d;
    RoundTrip(magic, 4);
    RoundTrip(version, 2);
    RoundTrip(header, 2);
    RoundTrip(files, 8);
  }

  lemma Wrapping(image: Image, device: nat)
    requires |image| == 16 && Field(image, 0, 4) == MAGIC && Field(image, 4, 2) == VERSION
    requires Field(image, 6, 2) == 20 && Field(image, 8, 8) == SIZES - 4
    ensures OuterOk(image) && !MayServe(image, device)
  {
    assert (20 + (SIZES - 4)) % SIZES == 16;
  }

  lemma WrappedSizes(device: nat)
    ensures OuterOk(WrappingImage()) && |WrappingImage()| == 16 && !MayServe(WrappingImage(), device)
  {
    Powers();
    OuterFields(MAGIC, VERSION, 20, SIZES - 4);
    Wrapping(WrappingImage(), device);
  }

  /** The loop of the client's test. */
  method MayServeDevice(image: Image, device: nat) returns (r: bool)
    ensures r == MayServe(image, device)
  {
    if !OuterOk(image) {
      return true;
    }
    var offset := Field(image, 6, 2);
    while offset < |image|
      invariant MayServe(image, device) == (offset <= |image| && SomeEntryServes(image[offset..], device))
      decreases |image| - offset
    {
      var body := image[offset..];
      if !Complete(body) {
        return true;
      }
      if Kind(body) == CUBIN {
        if Arch(body) / 10 == device / 10 && Arch(body) <= device { return true; }
      } else if Kind(body) == PTX {
        if Arch(body) <= device { return true; }
      } else {
        return true;
      }
      assert body[Length(body)..] == image[offset + Length(body)..];
      offset := offset + Length(body);
    }
    r := false;
  }

  /** On a well formed image the test says whether any member is usable. */
  lemma {:induction false} ServesIffUsable(body: Image, device: nat)
    requires Parse(body).Some? && Members(Parse(body).value)
    ensures SomeEntryServes(body, device) <==> Select(Parse(body).value, [device]) != []
    decreases |body|
  {
    if body != [] {
      HeadIsMember(body);
      var ms := Parse(body).value;
      assert ms[1..] == Parse(body[Length(body)..]).value;
      ServesIffUsable(body[Length(body)..], device);
      SamePrefix(ms[0], body);
      OneDevice(ms[0], device);
    }
  }

  /** Of a well formed image with members the client's test is exact: it says whether
      any member can serve the device. */
  lemma TestIsExact(image: Image, device: nat)
    requires WellFormed(image) && Members(MembersOf(image)) && HEADER < |image| < Power(8)
    ensures MayServe(image, device) <==> UsableBy(image, device) != []
  {
    Powers();
    assert (HEADER + (|image| - HEADER)) % SIZES == |image|;
    ServesIffUsable(image[HEADER..], device);
  }

  /** And so it answers the same for an image and for its filtered form. */
  lemma TestAgrees(image: Image, devices: seq<nat>, device: nat)
    requires Changes(image, devices) && device in devices && |image| < Power(8)
    ensures MayServe(Pack(image, Select(MembersOf(image), devices)), device) <==> MayServe(image, device)
  {
    var kept := Select(MembersOf(image), devices);
    FilterPreservesMeaning(image, devices, device);
    KeptSize(image, devices);
    SelectMembers(MembersOf(image), devices);
    assert |kept[0]| >= ENTRY;
    TestIsExact(image, device);
    TestIsExact(Pack(image, kept), device);
  }
}
