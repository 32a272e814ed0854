/** A writer of stored archives, laid out as sections 4.3.7, 4.3.12 and 4.3.16 of the ZIP
    APPNOTE say, and the proof that the reader gives back what was written. */
module ZipRoundTrip {
  import opened Prelude
  import opened Zip

  /** A file to store. The fields the reader ignores are free: versions and flags, time stamps,
      attributes, both extra fields and the comment. */
  datatype File = File(
    name: Bytes, data: Bytes, crc: nat,
    localHead: Bytes, localStamp: Bytes, localExtra: Bytes,
    head: Bytes, stamp: Bytes, attributes: Bytes, extra: Bytes, comment: Bytes)

  // ---- Little-endian writes -----------------------------------------------------------------------

  /** The bytes of a number, least significant first, or zeros if it does not fit. */
  ghost function Put(x: nat, width: nat): (s: Bytes)
    ensures |s| == width
  {
    if exists s: Bytes :: |s| == width && Number(s) == x
    then var s: Bytes :| |s| == width && Number(s) == x; s
    else seq(width, _ => 0)
  }

  ghost function Put16(x: nat): (s: Bytes)
    ensures |s| == 2
  {
    Put(x, 2)
  }

  ghost function Put32(x: nat): (s: Bytes)
    ensures |s| == 4
  {
    Put(x, 4)
  }

  function Power(width: nat): nat {
    if width == 0 then 1 else 0x100 * Power(width - 1)
  }

  lemma {:induction false} SomeBytes(x: nat, width: nat) returns (s: Bytes)
    requires x < Power(width)
    ensures |s| == width && Number(s) == x
  {
    if width == 0 {
      s := [];
    } else {
      var rest := SomeBytes(x / 0x100, width - 1);
      s := [x % 0x100] + rest;
      assert s[1..] == rest;
    }
  }

  /** A number that fits its width is what its bytes stand for. */
  lemma NumberPut(x: nat, width: nat)
    requires x < Power(width)
    ensures Number(Put(x, width)) == x
  {
    var s := SomeBytes(x, width);
  }

  lemma Get16Put16(x: nat)
    requires x < 0x1_0000
    ensures Get16(Put16(x), 0) == x
  {
    assert Power(2) == 0x1_0000;
    NumberPut(x, 2);
    assert Put16(x)[0..2] == Put16(x);
  }

  lemma Get32Put32(x: nat)
    requires x < 0x1_0000_0000
    ensures Get32(Put32(x), 0) == x
  {
    assert Power(4) == 0x1_0000_0000;
    NumberPut(x, 4);
    assert Put32(x)[0..4] == Put32(x);
  }

  /** Reading inside a part of the buffer is reading the part. */
  lemma Get16Within(buffer: Bytes, at: nat, part: Bytes, k: nat)
    requires at + |part| <= |buffer| && buffer[at..at + |part|] == part && k + 2 <= |part|
    ensures Get16(buffer, at + k) == Get16(part, k)
  {
    Part(buffer, at, part, k, k + 2);
  }

  lemma Get32Within(buffer: Bytes, at: nat, part: Bytes, k: nat)
    requires at + |part| <= |buffer| && buffer[at..at + |part|] == part && k + 4 <= |part|
    ensures Get32(buffer, at + k) == Get32(part, k)
  {
    Part(buffer, at, part, k, k + 4);
  }

  /** A field written after some bytes and before others is read back from its place. */
  lemma Field16(before: Bytes, x: nat, after: Bytes)
    requires x < 0x1_0000
    ensures Get16(before + Put16(x) + after, |before|) == x
  {
    var all := before + Put16(x) + after;
    assert all[|before|..|before| + 2] == Put16(x);
    Get16Within(all, |before|, Put16(x), 0);
    Get16Put16(x);
  }

  lemma Field32(before: Bytes, x: nat, after: Bytes)
    requires x < 0x1_0000_0000
    ensures Get32(before + Put32(x) + after, |before|) == x
  {
    var all := before + Put32(x) + after;
    assert all[|before|..|before| + 4] == Put32(x);
    Get32Within(all, |before|, Put32(x), 0);
    Get32Put32(x);
  }

  // ---- The records ----------------------------------------------------------------------------------

  predicate Storable(f: File) {
    && |f.name| < 0x1_0000 && |f.data| < 0x1_0000_0000 && f.crc < 0x1_0000_0000
    && |f.localHead| == 4 && |f.localStamp| == 4 && |f.localExtra| < 0x1_0000
    && |f.head| == 6 && |f.stamp| == 4 && |f.attributes| == 8 && |f.extra| < 0x1_0000 && |f.comment| < 0x1_0000
  }

  /** Section 4.3.7: signature, versions and flags, method 0, time stamp, checksum, sizes, name
      and extra lengths, name, extra field; then the data. */
  ghost function LocalStart(f: File): Bytes {
    Put32(LOCAL) + f.localHead + Put16(0) + f.localStamp
  }

  ghost function Sizes(f: File): (s: Bytes)
    ensures |s| == 12
  {
    Put32(f.crc) + Put32(|f.data|) + Put32(|f.data|)
  }

  ghost function LocalHeader(f: File): Bytes {
    LocalStart(f) + Sizes(f) + Put16(|f.name|) + Put16(|f.localExtra|)
  }

  /** Section 4.3.12: the same, with a comment, attributes and where the local header is. */
  ghost function CentralStart(f: File): (s: Bytes)
    ensures |s| == 6 + |f.head| + |f.stamp|
  {
    Put32(CENTRAL) + f.head + Put16(0) + f.stamp
  }

  ghost function Lengths(f: File): (s: Bytes)
    ensures |s| == 6
  {
    Put16(|f.name|) + Put16(|f.extra|) + Put16(|f.comment|)
  }

  ghost function CentralHeader(f: File, offset: nat): Bytes {
    CentralStart(f) + Sizes(f) + Lengths(f) + f.attributes + Put32(offset)
  }

  /** Section 4.3.16, on one disk and without an archive comment. */
  ghost function End(count: nat, size: nat, offset: nat): Bytes {
    EndStart(count) + Put32(size) + Put32(offset) + Put16(0)
  }

  ghost function EndStart(count: nat): (s: Bytes)
    ensures |s| == 12
  {
    Put32(EOCD) + (Put16(0) + Put16(0) + Put16(count)) + Put16(count)
  }

  /** A file with its two headers, as they are written. */
  datatype Stored = Stored(file: File, localHeader: Bytes, header: Bytes)

  function LocalRecord(s: Stored): Bytes {
    s.localHeader + s.file.name + s.file.localExtra + s.file.data
  }

  function CentralRecord(s: Stored): Bytes {
    s.header + s.file.name + s.file.extra + s.file.comment
  }

  function Locals(stored: seq<Stored>): Bytes {
    if stored == [] then [] else Locals(stored[..|stored| - 1]) + LocalRecord(stored[|stored| - 1])
  }

  function Centrals(stored: seq<Stored>): Bytes {
    if stored == [] then [] else Centrals(stored[..|stored| - 1]) + CentralRecord(stored[|stored| - 1])
  }

  /** The writer: every header is made when the offset of its file is known. */
  function Write(make: (File, nat) -> Stored, files: seq<File>): seq<Stored> {
    if files == [] then []
    else
      var before := Write(make, files[..|files| - 1]);
      before + [make(files[|files| - 1], |Locals(before)|)]
  }

  ghost function WithHeaders(f: File, offset: nat): Stored {
    Stored(f, LocalHeader(f), CentralHeader(f, offset))
  }

  ghost function Archive(files: seq<File>): Bytes {
    var stored := Write(WithHeaders, files);
    Locals(stored) + Centrals(stored) + End(|files|, |Centrals(stored)|, |Locals(stored)|)
  }

  function EntryOf(f: File, offset: nat): Entry {
    Entry(f.name, 0, f.crc, |f.data|, |f.data|, offset)
  }

  // ---- A record read back -----------------------------------------------------------------------------

  lemma FourParts(a: Bytes, b: Bytes, c: Bytes, d: Bytes)
    ensures var all := a + b + c + d;
            all[0..|a|] == a && all[|a| + |b|..|a| + |b| + |c|] == c
  {
    var all := a + b + c + d;
    assert all[|a| + |b|..|a| + |b| + |c|] == c;
  }

  lemma StartReadsBack(all: Bytes, start: Bytes, s: Bytes, head: Bytes, z: Bytes, stamp: Bytes)
    requires |s| == 4 && |z| == 2 && start == s + head + z + stamp
    requires |start| <= |all| && all[0..|start|] == start
    ensures Get32(all, 0) == Get32(s, 0) && Get16(all, 4 + |head|) == Get16(z, 0)
  {
    StartParts(all, start, s, head, z, stamp);
    Get32Within(all, 0, s, 0);
    Get16Within(all, 4 + |head|, z, 0);
  }

  lemma StartParts(all: Bytes, start: Bytes, s: Bytes, head: Bytes, z: Bytes, stamp: Bytes)
    requires |s| == 4 && |z| == 2 && start == s + head + z + stamp
    requires |start| <= |all| && all[0..|start|] == start
    ensures all[0..4] == s && all[4 + |head|..6 + |head|] == z
  {
    FourParts(s, head, z, stamp);
    Part(all, 0, start, 0, 4);
    Part(all, 0, start, 4 + |head|, 6 + |head|);
  }

  /** A part of a part. */
  lemma Part(buffer: Bytes, at: nat, part: Bytes, i: nat, j: nat)
    requires at + |part| <= |buffer| && buffer[at..at + |part|] == part && i <= j <= |part|
    ensures buffer[at + i..at + j] == part[i..j]
  {
    forall k | 0 <= k < j - i ensures buffer[at + i..at + j][k] == part[i..j][k] {
      assert part[i + k] == buffer[at..at + |part|][i + k];
    }
  }

  lemma SizesReadBack(f: File)
    requires Storable(f)
    ensures var sizes := Sizes(f);
            Get32(sizes, 0) == f.crc && Get32(sizes, 4) == |f.data| && Get32(sizes, 8) == |f.data|
  {
    var a, b := Put32(f.crc), Put32(|f.data|);
    assert a + b + b == [] + a + (b + b) && a + b + b == a + b + b + [];
    Field32([], f.crc, b + b);
    Field32(a, |f.data|, b);
    Field32(a + b, |f.data|, []);
  }

  lemma LengthsReadBack(f: File)
    requires Storable(f)
    ensures var lengths := Lengths(f);
            Get16(lengths, 0) == |f.name| && Get16(lengths, 2) == |f.extra| && Get16(lengths, 4) == |f.comment|
  {
    var a, b, c := Put16(|f.name|), Put16(|f.extra|), Put16(|f.comment|);
    assert a + b + c == [] + a + (b + c) && a + b + c == a + b + c + [];
    Field16([], |f.name|, b + c);
    Field16(a, |f.extra|, c);
    Field16(a + b, |f.comment|, []);
  }

  lemma FiveParts(a: Bytes, b: Bytes, c: Bytes, d: Bytes, e: Bytes)
    ensures var all := a + b + c + d + e;
            var ab, abc, abcd := |a| + |b|, |a| + |b| + |c|, |a| + |b| + |c| + |d|;
            all[0..|a|] == a && all[|a|..ab] == b && all[ab..abc] == c && all[abcd..abcd + |e|] == e
  {
    var all := a + b + c + d + e;
    var ab, abc, abcd := |a| + |b|, |a| + |b| + |c|, |a| + |b| + |c| + |d|;
    assert all[|a|..ab] == b;
    assert all[ab..abc] == c;
    assert all[abcd..abcd + |e|] == e;
  }

  /** The header's parts lie where the layout says. */
  lemma CentralParts(f: File, offset: nat)
    requires Storable(f)
    ensures var h := CentralHeader(f, offset);
            |h| == 46 && h[0..16] == CentralStart(f) && h[16..28] == Sizes(f) && h[28..34] == Lengths(f) && h[42..46] == Put32(offset)
  {
    FiveParts(CentralStart(f), Sizes(f), Lengths(f), f.attributes, Put32(offset));
  }

  lemma CentralStartRead(h: Bytes, f: File)
    requires Storable(f) && |h| == 46 && h[0..16] == CentralStart(f)
    ensures Get32(h, 0) == CENTRAL && Get16(h, 10) == 0
  {
    StartReadsBack(h, CentralStart(f), Put32(CENTRAL), f.head, Put16(0), f.stamp);
    Get32Put32(CENTRAL);
    Get16Put16(0);
  }

  lemma CentralSizesRead(h: Bytes, f: File)
    requires Storable(f) && |h| == 46 && h[16..28] == Sizes(f)
    ensures Get32(h, 16) == f.crc && Get32(h, 20) == |f.data| && Get32(h, 24) == |f.data|
  {
    SizesReadBack(f);
    Get32Within(h, 16, Sizes(f), 0);
    Get32Within(h, 16, Sizes(f), 4);
    Get32Within(h, 16, Sizes(f), 8);
  }

  lemma CentralLengthsRead(h: Bytes, f: File)
    requires Storable(f) && |h| == 46 && h[28..34] == Lengths(f)
    ensures Get16(h, 28) == |f.name| && Get16(h, 30) == |f.extra| && Get16(h, 32) == |f.comment|
  {
    LengthsReadBack(f);
    Get16Within(h, 28, Lengths(f), 0);
    Get16Within(h, 28, Lengths(f), 2);
    Get16Within(h, 28, Lengths(f), 4);
  }

  function FieldsOf(f: File, offset: nat): Fields {
    Fields(0, f.crc, |f.data|, |f.data|, |f.name|, |f.extra|, |f.comment|, offset)
  }

  predicate CentralHeaderReads(h: Bytes, f: File, offset: nat) {
    |h| == 46 && Get32(h, 0) == CENTRAL && FieldsAt(h, 0) == FieldsOf(f, offset)
  }

  lemma CentralHeaderReadsBack(f: File, offset: nat)
    requires Storable(f) && offset < 0x1_0000_0000
    ensures CentralHeaderReads(CentralHeader(f, offset), f, offset)
  {
    CentralParts(f, offset);
    PartsRead(CentralHeader(f, offset), Put32(offset), f, offset);
  }

  lemma PartsRead(h: Bytes, last: Bytes, f: File, offset: nat)
    requires Storable(f) && offset < 0x1_0000_0000 && last == Put32(offset)
    requires |h| == 46 && h[0..16] == CentralStart(f) && h[16..28] == Sizes(f) && h[28..34] == Lengths(f) && h[42..46] == last
    ensures CentralHeaderReads(h, f, offset)
  {
    CentralStartRead(h, f);
    CentralSizesRead(h, f);
    CentralLengthsRead(h, f);
    Get32Put32(offset);
    Get32Within(h, 42, last, 0);
  }

  predicate LocalHeaderReads(h: Bytes, f: File) {
    |h| == 30 && Get32(h, 0) == LOCAL && Get16(h, 26) == |f.name| && Get16(h, 28) == |f.localExtra|
  }

  lemma LocalHeaderReadsBack(f: File)
    requires Storable(f)
    ensures LocalHeaderReads(LocalHeader(f), f)
  {
    var h := LocalHeader(f);
    var start := LocalStart(f) + Sizes(f);
    assert |start| == 26;
    Field16(start, |f.name|, Put16(|f.localExtra|));
    assert h == start + Put16(|f.name|) + Put16(|f.localExtra|);
    Field16(start + Put16(|f.name|), |f.localExtra|, []);
    assert h == (start + Put16(|f.name|)) + Put16(|f.localExtra|) + [];
    assert h[0..|LocalStart(f)|] == LocalStart(f);
    StartReadsBack(h, LocalStart(f), Put32(LOCAL), f.localHead, Put16(0), f.localStamp);
    Get32Put32(LOCAL);
  }

  /** A record of a fixed head and three parts, lying in a buffer. */
  lemma RecordWithin(buffer: Bytes, at: nat, h: Bytes, a: Bytes, b: Bytes, c: Bytes)
    requires var record := h + a + b + c; at + |record| <= |buffer| && buffer[at..at + |record|] == record
    ensures buffer[at..at + |h|] == h && buffer[at + |h|..at + |h| + |a|] == a
    ensures var start := at + |h| + |a| + |b|; buffer[start..start + |c|] == c
  {
    var record := h + a + b + c;
    var start := |h| + |a| + |b|;
    RecordParts(h, a, b, c);
    Part(buffer, at, record, 0, |h|);
    Part(buffer, at, record, |h|, |h| + |a|);
    Part(buffer, at, record, start, start + |c|);
  }

  lemma RecordParts(h: Bytes, a: Bytes, b: Bytes, c: Bytes)
    ensures var record := h + a + b + c;
            var start := |h| + |a| + |b|;
            record[0..|h|] == h && record[|h|..|h| + |a|] == a && record[start..start + |c|] == c
  {
    var record := h + a + b + c;
    FourParts(h, a, b, c);
    FourParts(h, [], a, b + c);
    assert record == h + [] + a + (b + c);
    FourParts(h + a, b, c, []);
    assert record == (h + a) + b + c + [];
  }

  function SizeOf(s: Stored): nat {
    |s.header| + |s.file.name| + |s.file.extra| + |s.file.comment|
  }

  lemma RecordSize(s: Stored)
    ensures |CentralRecord(s)| == SizeOf(s)
  {
  }

  /** A central record's header and name lie in a buffer, with room for the rest of it. */
  predicate HeadLies(buffer: Bytes, at: nat, s: Stored) {
    var named := at + |s.header|;
    && at + SizeOf(s) <= |buffer|
    && buffer[at..named] == s.header && buffer[named..named + |s.file.name|] == s.file.name
  }

  lemma RecordHeadLies(buffer: Bytes, at: nat, s: Stored)
    requires at + |CentralRecord(s)| <= |buffer| && buffer[at..at + |CentralRecord(s)|] == CentralRecord(s)
    ensures HeadLies(buffer, at, s)
  {
    RecordSize(s);
    RecordWithin(buffer, at, s.header, s.file.name, s.file.extra, s.file.comment);
  }

  /** Wherever a central record lies in a buffer, it is read as its file's entry. */
  lemma CentralLies(buffer: Bytes, at: nat, s: Stored, offset: nat, index: nat)
    requires CentralHeaderReads(s.header, s.file, offset) && HeadLies(buffer, at, s)
    ensures CentralAt(buffer, at, index) == Ok((EntryOf(s.file, offset), at + SizeOf(s)))
  {
    CentralHeaderIsEntry(buffer, at, s.header, s.file, offset, index);
  }

  lemma CentralHeaderIsEntry(buffer: Bytes, at: nat, h: Bytes, f: File, offset: nat, index: nat)
    requires CentralHeaderReads(h, f, offset) && at + 46 + |f.name| <= |buffer|
    requires buffer[at..at + 46] == h && buffer[at + 46..at + 46 + |f.name|] == f.name
    ensures CentralAt(buffer, at, index) == Ok((EntryOf(f, offset), at + 46 + |f.name| + |f.extra| + |f.comment|))
  {
    FieldsWithin(buffer, at, h);
    NamedAs(buffer, at, f, offset);
  }

  lemma NamedAs(buffer: Bytes, at: nat, f: File, offset: nat)
    requires at + 46 + |f.name| <= |buffer| && buffer[at + 46..at + 46 + |f.name|] == f.name
    ensures Named(buffer, at, FieldsOf(f, offset)) == (EntryOf(f, offset), at + 46 + |f.name| + |f.extra| + |f.comment|)
  {
  }

  lemma FieldsWithin(buffer: Bytes, at: nat, h: Bytes)
    requires |h| == 46 && at + 46 <= |buffer| && buffer[at..at + 46] == h
    ensures Get32(buffer, at) == Get32(h, 0) && FieldsAt(buffer, at) == FieldsAt(h, 0)
  {
    Get32Within(buffer, at, h, 0);
    Get16Within(buffer, at, h, 10);
    Get32Within(buffer, at, h, 16);
    Get32Within(buffer, at, h, 20);
    Get32Within(buffer, at, h, 24);
    Get16Within(buffer, at, h, 28);
    Get16Within(buffer, at, h, 30);
    Get16Within(buffer, at, h, 32);
    Get32Within(buffer, at, h, 42);
  }

  lemma LocalHeaderFindsData(buffer: Bytes, at: nat, h: Bytes, f: File)
    requires LocalHeaderReads(h, f)
    requires at + 30 + |f.name| + |f.localExtra| + |f.data| <= |buffer| && buffer[at..at + 30] == h
    requires var start := at + 30 + |f.name| + |f.localExtra|; buffer[start..start + |f.data|] == f.data
    ensures DataOf(buffer, EntryOf(f, at)) == Ok(f.data)
  {
    Get32Within(buffer, at, h, 0);
    Get16Within(buffer, at, h, 26);
    Get16Within(buffer, at, h, 28);
  }

  // ---- An archive read back ---------------------------------------------------------------------------

  predicate WellStored(s: Stored, offset: nat) {
    LocalHeaderReads(s.localHeader, s.file) && CentralHeaderReads(s.header, s.file, offset)
  }

  predicate AllWell(stored: seq<Stored>) {
    forall i :: 0 <= i < |stored| ==> WellStored(stored[i], |Locals(stored[..i])|)
  }

  ghost predicate MakesWell(make: (File, nat) -> Stored) {
    forall f, offset: nat | Storable(f) && offset < 0x1_0000_0000 ::
      WellStored(make(f, offset), offset)
  }

  lemma HeadersAreWell()
    ensures MakesWell(WithHeaders)
  {
    forall f, offset: nat | Storable(f) && offset < 0x1_0000_0000
      ensures WellStored(WithHeaders(f, offset), offset)
    {
      LocalHeaderReadsBack(f);
      CentralHeaderReadsBack(f, offset);
    }
  }

  lemma {:induction false} WriteIsWell(make: (File, nat) -> Stored, files: seq<File>)
    requires MakesWell(make) && forall f <- files :: Storable(f)
    requires |Locals(Write(make, files))| < 0x1_0000_0000
    ensures AllWell(Write(make, files))
  {
    if files != [] {
      var before, stored := Write(make, files[..|files| - 1]), Write(make, files);
      assert stored[..|stored| - 1] == before;
      WriteIsWell(make, files[..|files| - 1]);
      assert files[|files| - 1] in files;
      WellAppended(before, stored, make(files[|files| - 1], |Locals(before)|));
    }
  }

  lemma {:induction false} WriteKeepsFiles(make: (File, nat) -> Stored, files: seq<File>)
    requires forall f, offset :: make(f, offset).file == f
    ensures |Write(make, files)| == |files| && forall i :: 0 <= i < |files| ==> Write(make, files)[i].file == files[i]
  {
    if files != [] {
      WriteKeepsFiles(make, files[..|files| - 1]);
    }
  }

  lemma WellAppended(before: seq<Stored>, stored: seq<Stored>, last: Stored)
    requires AllWell(before) && stored == before + [last] && WellStored(last, |Locals(before)|)
    ensures AllWell(stored)
  {
    forall i | 0 <= i < |stored| ensures WellStored(stored[i], |Locals(stored[..i])|) {
      if i < |before| {
        assert stored[..i] == before[..i];
      } else {
        assert stored[..i] == before;
      }
    }
  }

  lemma {:induction false} LocalPlace(stored: seq<Stored>, i: nat)
    requires i < |stored|
    ensures var at := |Locals(stored[..i])|;
            at + |LocalRecord(stored[i])| <= |Locals(stored)|
            && Locals(stored)[at..at + |LocalRecord(stored[i])|] == LocalRecord(stored[i])
  {
    var before, last := stored[..|stored| - 1], LocalRecord(stored[|stored| - 1]);
    if i == |before| {
      assert stored[..i] == before;
    } else {
      LocalPlace(before, i);
      assert before[..i] == stored[..i];
      var at := |Locals(stored[..i])|;
      assert (Locals(before) + last)[at..at + |LocalRecord(stored[i])|] == Locals(before)[at..at + |LocalRecord(stored[i])|];
    }
  }

  lemma {:induction false} CentralPlace(stored: seq<Stored>, i: nat)
    requires i < |stored|
    ensures var at := |Centrals(stored[..i])|;
            at + |CentralRecord(stored[i])| <= |Centrals(stored)|
            && Centrals(stored)[at..at + |CentralRecord(stored[i])|] == CentralRecord(stored[i])
  {
    var before, last := stored[..|stored| - 1], CentralRecord(stored[|stored| - 1]);
    if i == |before| {
      assert stored[..i] == before;
    } else {
      CentralPlace(before, i);
      assert before[..i] == stored[..i];
      var at := |Centrals(stored[..i])|;
      assert (Centrals(before) + last)[at..at + |CentralRecord(stored[i])|] == Centrals(before)[at..at + |CentralRecord(stored[i])|];
    }
  }

  function EntriesOf(stored: seq<Stored>): (entries: seq<Entry>)
    ensures |entries| == |stored|
  {
    if stored == [] then []
    else
      var before := stored[..|stored| - 1];
      EntriesOf(before) + [EntryOf(stored[|stored| - 1].file, |Locals(before)|)]
  }

  /** The buffer holds the local records first and the central records from there on. */
  predicate LaidOut(buffer: Bytes, stored: seq<Stored>) {
    var locals, centrals := Locals(stored), Centrals(stored);
    |locals| + |centrals| <= |buffer| && buffer[..|locals|] == locals && buffer[|locals|..|locals| + |centrals|] == centrals
  }

  function PlaceOf(stored: seq<Stored>, i: nat): nat
    requires i <= |stored|
  {
    |Locals(stored)| + |Centrals(stored[..i])|
  }

  lemma CentralSlice(buffer: Bytes, stored: seq<Stored>, i: nat)
    requires LaidOut(buffer, stored) && i < |stored|
    ensures HeadLies(buffer, PlaceOf(stored, i), stored[i])
  {
    var start := |Centrals(stored[..i])|;
    CentralPlace(stored, i);
    Part(buffer, |Locals(stored)|, Centrals(stored), start, start + |CentralRecord(stored[i])|);
    RecordHeadLies(buffer, PlaceOf(stored, i), stored[i]);
  }

  predicate ReadsAs(buffer: Bytes, at: nat, index: nat, entry: Entry, next: nat) {
    CentralAt(buffer, at, index) == Ok((entry, next))
  }

  lemma LyingReads(buffer: Bytes, at: nat, s: Stored, offset: nat, index: nat)
    requires WellStored(s, offset) && HeadLies(buffer, at, s)
    ensures ReadsAs(buffer, at, index, EntryOf(s.file, offset), at + SizeOf(s))
  {
    CentralLies(buffer, at, s, offset, index);
  }

  predicate OneReads(buffer: Bytes, stored: seq<Stored>, i: nat)
    requires i < |stored|
  {
    ReadsAs(buffer, PlaceOf(stored, i), i + 1, EntryOf(stored[i].file, |Locals(stored[..i])|), PlaceOf(stored, i + 1))
  }

  lemma {:induction false} NextPlace(stored: seq<Stored>, i: nat)
    requires i < |stored|
    ensures PlaceOf(stored, i + 1) == PlaceOf(stored, i) + SizeOf(stored[i])
  {
    RecordSize(stored[i]);
    assert stored[..i + 1][..i] == stored[..i];
  }

  lemma RecordReads(buffer: Bytes, stored: seq<Stored>, i: nat, s: Stored, at: nat, offset: nat)
    requires i < |stored| && s == stored[i] && at == PlaceOf(stored, i) && offset == |Locals(stored[..i])|
    requires ReadsAs(buffer, at, i + 1, EntryOf(s.file, offset), at + SizeOf(s))
    ensures OneReads(buffer, stored, i)
  {
    NextPlace(stored, i);
  }

  lemma EntriesStep(buffer: Bytes, offset: nat, n: nat, entries: seq<Entry>, at: nat, entry: Entry, next: nat)
    requires n > 0 && EntriesUpTo(buffer, offset, n - 1) == Ok(Found(entries, at)) && ReadsAs(buffer, at, n, entry, next)
    ensures EntriesUpTo(buffer, offset, n) == Ok(Found(entries + [entry], next))
  {
  }

  /** The directory loop reads every record in turn. */
  lemma {:induction false} EntriesReadBack(buffer: Bytes, stored: seq<Stored>, n: nat)
    requires n <= |stored| && forall i :: 0 <= i < |stored| ==> OneReads(buffer, stored, i)
    ensures EntriesUpTo(buffer, |Locals(stored)|, n) == Ok(Found(EntriesOf(stored[..n]), PlaceOf(stored, n)))
  {
    if n > 0 {
      var before, last := stored[..n - 1], stored[n - 1];
      assert stored[..n][..n - 1] == before;
      EntriesReadBack(buffer, stored, n - 1);
      assert OneReads(buffer, stored, n - 1);
      EntriesStep(buffer, |Locals(stored)|, n, EntriesOf(before), PlaceOf(stored, n - 1),
                  EntryOf(last.file, |Locals(before)|), PlaceOf(stored, n));
    }
  }

  /** A local record's header and data lie in a buffer. */
  predicate LocalHeadLies(buffer: Bytes, at: nat, s: Stored) {
    var start := at + |s.localHeader| + |s.file.name| + |s.file.localExtra|;
    && start + |s.file.data| <= |buffer|
    && buffer[at..at + |s.localHeader|] == s.localHeader && buffer[start..start + |s.file.data|] == s.file.data
  }

  lemma LocalSlice(buffer: Bytes, stored: seq<Stored>, i: nat)
    requires LaidOut(buffer, stored) && i < |stored|
    ensures LocalHeadLies(buffer, |Locals(stored[..i])|, stored[i])
  {
    var s, at := stored[i], |Locals(stored[..i])|;
    LocalPlace(stored, i);
    assert buffer[0..|Locals(stored)|] == Locals(stored);
    Part(buffer, 0, Locals(stored), at, at + |LocalRecord(s)|);
    RecordWithin(buffer, at, s.localHeader, s.file.name, s.file.localExtra, s.file.data);
  }

  /** The entry's data is where its offset says. */
  predicate Finds(buffer: Bytes, at: nat, s: Stored) {
    DataOf(buffer, EntryOf(s.file, at)) == Ok(s.file.data)
  }

  ghost predicate LyingIsFound(buffer: Bytes, well: (Stored, nat) -> bool) {
    forall s, at: nat | well(s, at) && LocalHeadLies(buffer, at, s) :: Finds(buffer, at, s)
  }

  lemma WellStoredIsFound(buffer: Bytes)
    ensures LyingIsFound(buffer, WellStored)
  {
    forall s, at: nat | WellStored(s, at) && LocalHeadLies(buffer, at, s) ensures Finds(buffer, at, s) {
      LocalHeaderFindsData(buffer, at, s.localHeader, s.file);
    }
  }

  ghost predicate AllFound(buffer: Bytes, stored: seq<Stored>) {
    forall i :: 0 <= i < |stored| ==> Finds(buffer, |Locals(stored[..i])|, stored[i])
  }

  lemma LaidOutIsFound(buffer: Bytes, stored: seq<Stored>, well: (Stored, nat) -> bool)
    requires LaidOut(buffer, stored) && LyingIsFound(buffer, well)
    requires forall i :: 0 <= i < |stored| ==> well(stored[i], |Locals(stored[..i])|)
    ensures AllFound(buffer, stored)
  {
    forall i | 0 <= i < |stored| ensures Finds(buffer, |Locals(stored[..i])|, stored[i]) {
      LocalSlice(buffer, stored, i);
    }
  }

  /** Each entry's data is where its offset says. */
  lemma DataReadsBack(buffer: Bytes, stored: seq<Stored>)
    requires AllWell(stored) && LaidOut(buffer, stored)
    ensures AllFound(buffer, stored)
  {
    WellStoredIsFound(buffer);
    LaidOutIsFound(buffer, stored, WellStored);
  }

  // ---- The whole archive --------------------------------------------------------------------------------

  /** The end record's fields, wherever it lies. */
  predicate EndReads(end: Bytes, count: nat, offset: nat) {
    |end| == 22 && Get32(end, 0) == EOCD && Get16(end, 10) == count && Get32(end, 16) == offset
  }

  lemma EndStartReads(end: Bytes, count: nat)
    requires count < 0x1_0000 && |end| == 22 && end[0..12] == EndStart(count)
    ensures Get32(end, 0) == EOCD && Get16(end, 10) == count
  {
    var head := Put16(0) + Put16(0) + Put16(count);
    assert EndStart(count) == Put32(EOCD) + head + Put16(count) + [];
    StartReadsBack(end, EndStart(count), Put32(EOCD), head, Put16(count), []);
    Get32Put32(EOCD);
    Get16Put16(count);
  }

  lemma EndReadsBack(count: nat, size: nat, offset: nat)
    requires count < 0x1_0000 && offset < 0x1_0000_0000
    ensures EndReads(End(count, size, offset), count, offset)
  {
    var end := End(count, size, offset);
    FourParts(EndStart(count), Put32(size), Put32(offset), Put16(0));
    EndStartReads(end, count);
    Get32Within(end, 16, Put32(offset), 0);
    Get32Put32(offset);
  }

  lemma EndFound(buffer: Bytes, found: int, end: Bytes, count: nat, offset: nat)
    requires IsLastEnd(buffer, found) && EndReads(end, count, offset)
    requires |buffer| >= 22 && buffer[|buffer| - 22..] == end
    requires count < 0xffff && offset < 0xffff_ffff
    ensures found == |buffer| - 22 && DirectoryAt(buffer, found) == Ok(Directory(count, offset))
  {
    var at := |buffer| - 22;
    assert buffer[at..at + |end|] == end;
    Get32Within(buffer, at, end, 0);
    Get16Within(buffer, at, end, 10);
    Get32Within(buffer, at, end, 16);
    assert IsEnd(buffer, at);
  }

  predicate RecordRead(buffer: Bytes, s: Stored, at: nat, offset: nat, index: nat) {
    ReadsAs(buffer, at, index, EntryOf(s.file, offset), at + SizeOf(s))
  }

  ghost predicate LyingIsRead(buffer: Bytes, well: (Stored, nat) -> bool) {
    forall s, at: nat, offset: nat, index: nat | well(s, offset) && HeadLies(buffer, at, s) ::
      RecordRead(buffer, s, at, offset, index)
  }

  lemma WellStoredIsRead(buffer: Bytes)
    ensures LyingIsRead(buffer, WellStored)
  {
    forall s, at: nat, offset: nat, index: nat | WellStored(s, offset) && HeadLies(buffer, at, s)
      ensures RecordRead(buffer, s, at, offset, index)
    {
      LyingReads(buffer, at, s, offset, index);
    }
  }

  lemma OneIsRead(buffer: Bytes, stored: seq<Stored>, well: (Stored, nat) -> bool, i: nat, s: Stored, at: nat, offset: nat)
    requires i < |stored| && s == stored[i] && at == PlaceOf(stored, i) && offset == |Locals(stored[..i])|
    requires HeadLies(buffer, at, s) && LyingIsRead(buffer, well) && well(s, offset)
    ensures OneReads(buffer, stored, i)
  {
    assert RecordRead(buffer, s, at, offset, i + 1);
    RecordReads(buffer, stored, i, s, at, offset);
  }

  lemma AllRead(buffer: Bytes, stored: seq<Stored>, well: (Stored, nat) -> bool)
    requires LaidOut(buffer, stored) && LyingIsRead(buffer, well)
    requires forall i :: 0 <= i < |stored| ==> well(stored[i], |Locals(stored[..i])|)
    ensures forall i :: 0 <= i < |stored| ==> OneReads(buffer, stored, i)
  {
    forall i | 0 <= i < |stored| ensures OneReads(buffer, stored, i) {
      CentralSlice(buffer, stored, i);
      OneIsRead(buffer, stored, well, i, stored[i], PlaceOf(stored, i), |Locals(stored[..i])|);
    }
  }

  lemma EntriesRead(buffer: Bytes, stored: seq<Stored>)
    requires forall i :: 0 <= i < |stored| ==> OneReads(buffer, stored, i)
    ensures EntriesUpTo(buffer, |Locals(stored)|, |stored|).Ok?
    ensures EntriesUpTo(buffer, |Locals(stored)|, |stored|).value.entries == EntriesOf(stored)
  {
    EntriesReadBack(buffer, stored, |stored|);
    assert stored[..|stored|] == stored;
  }

  lemma LaidOutReads(buffer: Bytes, stored: seq<Stored>)
    requires LaidOut(buffer, stored) && AllWell(stored)
    ensures EntriesUpTo(buffer, |Locals(stored)|, |stored|).Ok?
    ensures EntriesUpTo(buffer, |Locals(stored)|, |stored|).value.entries == EntriesOf(stored)
  {
    WellStoredIsRead(buffer);
    AllRead(buffer, stored, WellStored);
    EntriesRead(buffer, stored);
  }

  // ---- What open() keeps -----------------------------------------------------------------------------------

  predicate DistinctNames(stored: seq<Stored>) {
    forall i, j :: 0 <= i < j < |stored| ==> stored[i].file.name != stored[j].file.name
  }

  function EntryAt(stored: seq<Stored>, i: nat): Entry
    requires i < |stored|
  {
    EntryOf(stored[i].file, |Locals(stored[..i])|)
  }

  lemma {:induction false} NoneRefused(stored: seq<Stored>)
    requires forall s <- stored :: EntryKind(s.file.name).Some?
    ensures Refused(EntryKind, EntriesOf(stored)) == []
  {
    if stored != [] {
      var entries := EntriesOf(stored);
      assert entries[..|entries| - 1] == EntriesOf(stored[..|stored| - 1]);
      NoneRefused(stored[..|stored| - 1]);
      assert stored[|stored| - 1] in stored;
    }
  }

  lemma {:induction false} MessagesKept(stored: seq<Stored>, i: nat)
    requires DistinctNames(stored) && i < |stored| && stored[i].file.name == MESSAGES_ENTRY
    ensures MessagesOf(EntryKind, EntriesOf(stored)) == Some(EntryAt(stored, i))
  {
    var entries, before := EntriesOf(stored), stored[..|stored| - 1];
    assert entries[..|entries| - 1] == EntriesOf(before);
    if i == |before| {
      assert stored[..i] == before;
      MessagesKind();
    } else {
      assert stored[..i] == before[..i];
      MessagesKept(before, i);
      OnlyMessages(stored[|stored| - 1].file.name);
    }
  }

  lemma MessagesKind()
    ensures EntryKind(MESSAGES_ENTRY) == Some(Messages)
  {
  }

  lemma OnlyMessages(name: Bytes)
    ensures EntryKind(name) == Some(Messages) ==> name == MESSAGES_ENTRY
  {
  }

  predicate MediaNames(kind: Bytes -> Option<Kind>, media: map<Bytes, Entry>, stored: seq<Stored>) {
    forall n <- media :: exists i :: 0 <= i < |stored| && n == stored[i].file.name && kind(n) == Some(Media)
  }

  predicate MediaEntries(kind: Bytes -> Option<Kind>, media: map<Bytes, Entry>, stored: seq<Stored>) {
    forall i :: 0 <= i < |stored| && kind(stored[i].file.name) == Some(Media) ==>
      stored[i].file.name in media && media[stored[i].file.name] == EntryAt(stored, i)
  }

  predicate MediaIs(kind: Bytes -> Option<Kind>, media: map<Bytes, Entry>, stored: seq<Stored>) {
    MediaNames(kind, media, stored) && MediaEntries(kind, media, stored)
  }

  lemma {:induction false} MediaKept(stored: seq<Stored>)
    requires DistinctNames(stored)
    ensures MediaIs(EntryKind, MediaOf(EntryKind, EntriesOf(stored)), stored)
  {
    if stored != [] {
      var entries, before := EntriesOf(stored), stored[..|stored| - 1];
      assert entries[..|entries| - 1] == EntriesOf(before);
      MediaKept(before);
      assert entries[|entries| - 1] == EntryOf(stored[|before|].file, |Locals(before)|);
      MediaStep(EntryKind, MediaOf(EntryKind, EntriesOf(before)), before, stored, |Locals(before)|);
    }
  }

  function WithMedia(kind: Bytes -> Option<Kind>, media: map<Bytes, Entry>, last: Entry): map<Bytes, Entry> {
    if kind(last.name) == Some(Media) then media[last.name := last] else media
  }

  lemma MediaStep(kind: Bytes -> Option<Kind>, media: map<Bytes, Entry>, before: seq<Stored>, stored: seq<Stored>, offset: nat)
    requires DistinctNames(stored) && stored != [] && before == stored[..|stored| - 1] && offset == |Locals(before)|
    requires MediaIs(kind, media, before)
    ensures MediaIs(kind, WithMedia(kind, media, EntryOf(stored[|before|].file, offset)), stored)
  {
    var last := EntryOf(stored[|before|].file, offset);
    NamesStep(kind, media, before, stored, last);
    forall i | 0 <= i < |before| ensures EntryAt(before, i) == EntryAt(stored, i) {
      assert stored[..i] == before[..i];
    }
    assert stored[..|before|] == before;
    EntriesKept(kind, media, before, stored, last);
  }

  lemma NamesStep(kind: Bytes -> Option<Kind>, media: map<Bytes, Entry>, before: seq<Stored>, stored: seq<Stored>, last: Entry)
    requires stored != [] && before == stored[..|stored| - 1] && last.name == stored[|before|].file.name
    requires MediaNames(kind, media, before)
    ensures MediaNames(kind, WithMedia(kind, media, last), stored)
  {
    forall n | n in WithMedia(kind, media, last)
      ensures exists i :: 0 <= i < |stored| && n == stored[i].file.name && kind(n) == Some(Media)
    {
      if n in media {
        var i :| 0 <= i < |before| && n == before[i].file.name && kind(n) == Some(Media);
        assert stored[i] == before[i];
      }
    }
  }

  lemma EntriesKept(kind: Bytes -> Option<Kind>, media: map<Bytes, Entry>, before: seq<Stored>, stored: seq<Stored>, last: Entry)
    requires DistinctNames(stored) && stored != [] && before == stored[..|stored| - 1] && last.name == stored[|before|].file.name
    requires MediaEntries(kind, media, before)
    requires forall i :: 0 <= i < |before| ==> EntryAt(before, i) == EntryAt(stored, i)
    requires last == EntryAt(stored, |before|)
    ensures MediaEntries(kind, WithMedia(kind, media, last), stored)
  {
    forall i | 0 <= i < |stored| && kind(stored[i].file.name) == Some(Media)
      ensures stored[i].file.name in WithMedia(kind, media, last) && WithMedia(kind, media, last)[stored[i].file.name] == EntryAt(stored, i)
    {
      if i < |before| {
        assert before[i] == stored[i];
      }
    }
  }

  // ---- Reading undoes writing ---------------------------------------------------------------------------

  /** What the format and the reader ask of the files: sizes that fit, accepted and distinct
      names, one messages file, and the checksum of the data or none. */
  ghost predicate Exportable(files: seq<File>) {
    && (forall f <- files :: Storable(f) && EntryKind(f.name).Some? && (f.crc == 0 || f.crc == Checksum(f.data)))
    && (forall i, j :: 0 <= i < j < |files| ==> files[i].name != files[j].name)
    && (exists f <- files :: f.name == MESSAGES_ENTRY)
    && |files| < 0xffff && |Locals(Write(WithHeaders, files))| < 0xffff_ffff
  }

  lemma ArchiveLaidOut(locals: Bytes, centrals: Bytes, end: Bytes)
    requires |end| == 22
    ensures var buffer := locals + centrals + end;
            && buffer[..|locals|] == locals && buffer[|locals|..|locals| + |centrals|] == centrals
            && |buffer| >= 22 && buffer[|buffer| - 22..] == end
  {
  }

  /** open() accepts the archive and knows exactly its entries. */
  lemma OpenReadsArchive(buffer: Bytes, stored: seq<Stored>, end: Bytes, found: int)
    requires AllWell(stored) && EndReads(end, |stored|, |Locals(stored)|)
    requires buffer == Locals(stored) + Centrals(stored) + end && IsLastEnd(buffer, found)
    requires |stored| < 0xffff && |Locals(stored)| < 0xffff_ffff
    ensures OpenedAt(buffer, found) == Opened(EntriesOf(stored)) && AllFound(buffer, stored)
  {
    ArchiveLaidOut(Locals(stored), Centrals(stored), end);
    EndFound(buffer, found, end, |stored|, |Locals(stored)|);
    LaidOutReads(buffer, stored);
    DataReadsBack(buffer, stored);
  }

  lemma SummedDataPasses(buffer: Bytes, entry: Entry, data: Bytes, inflate: Bytes -> Option<Bytes>)
    requires DataOf(buffer, entry) == Ok(data) && entry.kind == 0 && (entry.crc == 0 || entry.crc == Checksum(data))
    ensures EntryData(buffer, entry, inflate) == Ok(data)
  {
  }

  /** What a reader of the result export gets for the i-th file. */
  predicate GivesBack(buffer: Bytes, result: Export, kind: Option<Kind>, f: File, inflate: Bytes -> Option<Bytes>) {
    && (kind == Some(Messages) ==> EntryData(buffer, result.messages, inflate) == Ok(f.data))
    && (kind == Some(Media) ==> f.name in result.media && EntryData(buffer, result.media[f.name], inflate) == Ok(f.data))
  }

  lemma StoredGivesBack(buffer: Bytes, stored: seq<Stored>, result: Export, i: nat, m: nat, inflate: Bytes -> Option<Bytes>)
    requires AllFound(buffer, stored) && DistinctNames(stored) && i < |stored| && m < |stored|
    requires result == Export(EntryAt(stored, m), MediaOf(EntryKind, EntriesOf(stored))) && stored[m].file.name == MESSAGES_ENTRY
    requires var f := stored[i].file; f.crc == 0 || f.crc == Checksum(f.data)
    ensures GivesBack(buffer, result, EntryKind(stored[i].file.name), stored[i].file, inflate)
  {
    var f := stored[i].file;
    assert Finds(buffer, |Locals(stored[..i])|, stored[i]);
    SummedDataPasses(buffer, EntryAt(stored, i), f.data, inflate);
    MediaKept(stored);
    OnlyMessages(f.name);
    assert EntryKind(f.name) == Some(Messages) ==> i == m;
  }

  /** The stored form of an exportable list of files is well formed. */
  lemma ExportableIsStored(make: (File, nat) -> Stored, kind: Bytes -> Option<Kind>, files: seq<File>)
    returns (stored: seq<Stored>, m: nat)
    requires MakesWell(make) && forall f, offset :: make(f, offset).file == f
    requires forall f <- files :: Storable(f) && kind(f.name).Some?
    requires forall i, j :: 0 <= i < j < |files| ==> files[i].name != files[j].name
    requires exists f <- files :: f.name == MESSAGES_ENTRY
    requires |Locals(Write(make, files))| < 0x1_0000_0000
    ensures stored == Write(make, files) && |stored| == |files| && AllWell(stored) && DistinctNames(stored)
    ensures forall i :: 0 <= i < |files| ==> stored[i].file == files[i]
    ensures m < |stored| && stored[m].file.name == MESSAGES_ENTRY
    ensures forall s <- stored :: kind(s.file.name).Some?
  {
    WriteIsWell(make, files);
    WriteKeepsFiles(make, files);
    stored := Write(make, files);
    var f :| f in files && f.name == MESSAGES_ENTRY;
    m :| 0 <= m < |files| && files[m] == f;
    KindsKept(kind, files, stored);
  }

  lemma KindsKept(kind: Bytes -> Option<Kind>, files: seq<File>, stored: seq<Stored>)
    requires |stored| == |files| && forall i :: 0 <= i < |files| ==> stored[i].file == files[i]
    requires forall f <- files :: kind(f.name).Some?
    ensures forall s <- stored :: kind(s.file.name).Some?
  {
    forall s | s in stored ensures kind(s.file.name).Some? {
      var i :| 0 <= i < |stored| && stored[i] == s;
      assert files[i] in files;
    }
  }

  lemma OpenedIs(stored: seq<Stored>, m: nat)
    requires DistinctNames(stored) && m < |stored| && stored[m].file.name == MESSAGES_ENTRY
    requires forall s <- stored :: EntryKind(s.file.name).Some?
    ensures Opened(EntriesOf(stored)) == Ok(Export(EntryAt(stored, m), MediaOf(EntryKind, EntriesOf(stored))))
  {
    NoneRefused(stored);
    MessagesKept(stored, m);
  }

  lemma ArchiveOpens(files: seq<File>, found: int) returns (stored: seq<Stored>, m: nat)
    requires Exportable(files) && IsLastEnd(Archive(files), found)
    ensures |stored| == |files| && DistinctNames(stored) && AllFound(Archive(files), stored)
    ensures forall i :: 0 <= i < |files| ==> stored[i].file == files[i]
    ensures m < |stored| && stored[m].file.name == MESSAGES_ENTRY
    ensures OpenedAt(Archive(files), found) == Ok(Export(EntryAt(stored, m), MediaOf(EntryKind, EntriesOf(stored))))
  {
    HeadersAreWell();
    stored, m := ExportableIsStored(WithHeaders, EntryKind, files);
    BufferOpens(Archive(files), stored, m, found);
  }

  lemma BufferOpens(buffer: Bytes, stored: seq<Stored>, m: nat, found: int)
    requires buffer == Locals(stored) + Centrals(stored) + End(|stored|, |Centrals(stored)|, |Locals(stored)|)
    requires IsLastEnd(buffer, found) && |stored| < 0xffff && |Locals(stored)| < 0xffff_ffff
    requires AllWell(stored) && DistinctNames(stored) && m < |stored| && stored[m].file.name == MESSAGES_ENTRY
    requires forall s <- stored :: EntryKind(s.file.name).Some?
    ensures AllFound(buffer, stored)
    ensures OpenedAt(buffer, found) == Ok(Export(EntryAt(stored, m), MediaOf(EntryKind, EntriesOf(stored))))
  {
    EndReadsBack(|stored|, |Centrals(stored)|, |Locals(stored)|);
    OpenReadsArchive(buffer, stored, End(|stored|, |Centrals(stored)|, |Locals(stored)|), found);
    OpenedIs(stored, m);
  }

  /** Reading undoes writing: the archive of every exportable list of files is accepted, and for
      each name the bytes that were written come back. */
  lemma ReadingUndoesWriting(files: seq<File>, found: int, i: nat, inflate: Bytes -> Option<Bytes>)
    requires Exportable(files) && IsLastEnd(Archive(files), found) && i < |files|
    ensures var result := OpenedAt(Archive(files), found);
            result.Ok? && GivesBack(Archive(files), result.value, EntryKind(files[i].name), files[i], inflate)
  {
    var stored, m := ArchiveOpens(files, found);
    assert files[i] in files;
    StoredGivesBack(Archive(files), stored, Export(EntryAt(stored, m), MediaOf(EntryKind, EntriesOf(stored))), i, m, inflate);
  }

  /** And nothing else: every media name of the result export is one that was written. */
  lemma NothingElseIsRead(files: seq<File>, found: int, name: Bytes)
    requires Exportable(files) && IsLastEnd(Archive(files), found)
    requires OpenedAt(Archive(files), found).Ok? && name in OpenedAt(Archive(files), found).value.media
    ensures exists i :: 0 <= i < |files| && files[i].name == name && EntryKind(name) == Some(Media)
  {
    var stored, m := ArchiveOpens(files, found);
    MediaKept(stored);
    var i :| 0 <= i < |stored| && stored[i].file.name == name && EntryKind(name) == Some(Media);
    assert files[i].name == name;
  }

  // ---- A changed byte --------------------------------------------------------------------------------------

  lemma BitsJoin(head: Bytes, b: Byte, tail: Bytes)
    ensures Bits(head + [b] + tail) == Bits(head) + [AsBits(b)] + Bits(tail)
  {
  }

  lemma PackTells(a: Octet, b: Octet)
    requires Pack(a) == Pack(b)
    ensures a == b
  {
  }

  lemma RestTells(r: nat, s: nat, weight: nat)
    requires r < 2 * weight && s < 2 * weight && (r >= weight <==> s >= weight)
    ensures Rest(r, weight) < weight && Rest(s, weight) < weight
    ensures Rest(r, weight) == Rest(s, weight) ==> r == s
  {
  }

  lemma HalfTells(r: nat, s: nat, w: nat)
    requires w in {1, 16} && r < 16 * w && s < 16 * w && (r >= 8 * w <==> s >= 8 * w)
    requires Rest(r, 8 * w) >= 4 * w <==> Rest(s, 8 * w) >= 4 * w
    requires Rest(Rest(r, 8 * w), 4 * w) >= 2 * w <==> Rest(Rest(s, 8 * w), 4 * w) >= 2 * w
    requires Rest(Rest(Rest(r, 8 * w), 4 * w), 2 * w) >= w <==> Rest(Rest(Rest(s, 8 * w), 4 * w), 2 * w) >= w
    ensures var low := Rest(Rest(Rest(Rest(r, 8 * w), 4 * w), 2 * w), w);
            low < w && (low == Rest(Rest(Rest(Rest(s, 8 * w), 4 * w), 2 * w), w) ==> r == s)
    ensures Rest(Rest(Rest(Rest(s, 8 * w), 4 * w), 2 * w), w) < w
  {
    RestTells(r, s, 8 * w);
    RestTells(Rest(r, 8 * w), Rest(s, 8 * w), 4 * w);
    RestTells(Rest(Rest(r, 8 * w), 4 * w), Rest(Rest(s, 8 * w), 4 * w), 2 * w);
    RestTells(Rest(Rest(Rest(r, 8 * w), 4 * w), 2 * w), Rest(Rest(Rest(s, 8 * w), 4 * w), 2 * w), w);
  }

  lemma TopHalfTells(b: Byte, c: Byte)
    requires OctetOf(b) == OctetOf(c)
    ensures var low, other := Rest(Rest(Rest(Rest(b, 128), 64), 32), 16), Rest(Rest(Rest(Rest(c, 128), 64), 32), 16);
            low < 16 && other < 16 && (low == other ==> b == c)
  {
    HalfTells(b, c, 16);
  }

  lemma LowHalfTells(b: Byte, c: Byte)
    requires OctetOf(b) == OctetOf(c)
    requires Rest(Rest(Rest(Rest(b, 128), 64), 32), 16) < 16 && Rest(Rest(Rest(Rest(c, 128), 64), 32), 16) < 16
    ensures Rest(Rest(Rest(Rest(b, 128), 64), 32), 16) == Rest(Rest(Rest(Rest(c, 128), 64), 32), 16)
  {
    HalfTells(Rest(Rest(Rest(Rest(b, 128), 64), 32), 16), Rest(Rest(Rest(Rest(c, 128), 64), 32), 16), 1);
  }

  /** Two bytes with the same bits are the same. */
  lemma OctetsTell(b: Byte, c: Byte)
    requires OctetOf(b) == OctetOf(c)
    ensures b == c
  {
    TopHalfTells(b, c);
    LowHalfTells(b, c);
  }

  lemma BitsTell(b: Byte, c: Byte)
    requires AsBits(b) == AsBits(c)
    ensures b == c
  {
    PackTells(OctetOf(b), OctetOf(c));
    OctetsTell(b, c);
  }

  lemma IntTells(x: bv32, y: bv32)
    requires x as int == y as int
    ensures x == y
  {
    assert (x as int) as bv32 == x && (y as int) as bv32 == y;
  }

  lemma ChecksumSeesByte(head: Bytes, b: Byte, c: Byte, tail: Bytes)
    requires b != c
    ensures Checksum(head + [b] + tail) != Checksum(head + [c] + tail)
  {
    BitsJoin(head, b, tail);
    BitsJoin(head, c, tail);
    if AsBits(b) == AsBits(c) {
      BitsTell(b, c);
    }
    Crc32.OneByteChangesCrc(Bits(head), AsBits(b), AsBits(c), Bits(tail));
    if Checksum(head + [b] + tail) == Checksum(head + [c] + tail) {
      IntTells(Crc32.Crc(Bits(head + [b] + tail)), Crc32.Crc(Bits(head + [c] + tail)));
    }
  }

  /** The header of an entry stays when a byte behind it changes. */
  lemma HeaderStays(buffer: Bytes, changed: Bytes, entry: Entry, p: nat, c: Byte)
    requires p < |buffer| && changed == buffer[p := c] && entry.localOffset + 30 <= p
    ensures Get32(changed, entry.localOffset) == Get32(buffer, entry.localOffset)
    ensures Get16(changed, entry.localOffset + 26) == Get16(buffer, entry.localOffset + 26)
    ensures Get16(changed, entry.localOffset + 28) == Get16(buffer, entry.localOffset + 28)
  {
    var at := entry.localOffset;
    assert changed[at..at + 4] == buffer[at..at + 4];
    assert changed[at + 26..at + 28] == buffer[at + 26..at + 28];
    assert changed[at + 28..at + 30] == buffer[at + 28..at + 30];
  }

  function StartOf(buffer: Bytes, entry: Entry): nat
    requires Holds(buffer, entry.localOffset, 30)
  {
    entry.localOffset + 30 + Get16(buffer, entry.localOffset + 26) + Get16(buffer, entry.localOffset + 28)
  }

  lemma ClampedSplit(buffer: Bytes, start: nat, end: nat, p: nat, c: Byte)
    requires start <= p < end && p < |buffer|
    ensures var to := Least(end, |buffer|);
            Clamped(buffer, start, end) == buffer[start..p] + [buffer[p]] + buffer[p + 1..to]
            && Clamped(buffer[p := c], start, end) == buffer[start..p] + [c] + buffer[p + 1..to]
  {
  }

  lemma DataStarts(buffer: Bytes, entry: Entry)
    requires Holds(buffer, entry.localOffset, 30) && Get32(buffer, entry.localOffset) == LOCAL
    ensures var start := StartOf(buffer, entry); DataOf(buffer, entry) == Ok(Clamped(buffer, start, start + entry.compressedSize))
  {
  }

  lemma WrongDataIsRefused(buffer: Bytes, entry: Entry, data: Bytes, inflate: Bytes -> Option<Bytes>)
    requires DataOf(buffer, entry) == Ok(data) && entry.kind == 0 && entry.crc != 0
    ensures EntryData(buffer, entry, inflate) == if Checksum(data) == entry.crc then Ok(data) else Err(Corrupt)
  {
  }

  lemma ReadsWellHasHeader(buffer: Bytes, entry: Entry, inflate: Bytes -> Option<Bytes>)
    requires EntryData(buffer, entry, inflate).Ok?
    ensures Holds(buffer, entry.localOffset, 30) && Get32(buffer, entry.localOffset) == LOCAL
  {
  }

  /** A stored entry that reads well is refused once any one byte of its data is another, if and
      only if the directory recorded a checksum for it that is not zero. */
  lemma ChangedByteIsRefusedIff(buffer: Bytes, entry: Entry, p: nat, c: Byte, inflate: Bytes -> Option<Bytes>)
    requires entry.kind == 0 && EntryData(buffer, entry, inflate).Ok?
    requires Holds(buffer, entry.localOffset, 30)
    requires StartOf(buffer, entry) <= p < StartOf(buffer, entry) + entry.compressedSize && p < |buffer| && c != buffer[p]
    ensures EntryData(buffer[p := c], entry, inflate) == Err(Corrupt) <==> entry.crc != 0
  {
    var start := StartOf(buffer, entry);
    ReadsWellHasHeader(buffer, entry, inflate);
    ChangedData(buffer, entry, start, p, c);
    ChangedClampIsRefusedIff(buffer, buffer[p := c], entry, start, start + entry.compressedSize, p, c, inflate);
  }

  lemma ChangedClampIsRefusedIff(buffer: Bytes, changed: Bytes, entry: Entry, start: nat, end: nat, p: nat, c: Byte,
                                 inflate: Bytes -> Option<Bytes>)
    requires start <= p < end && p < |buffer| && c != buffer[p] && changed == buffer[p := c]
    requires DataOf(buffer, entry) == Ok(Clamped(buffer, start, end)) && DataOf(changed, entry) == Ok(Clamped(changed, start, end))
    requires entry.kind == 0 && EntryData(buffer, entry, inflate).Ok?
    ensures EntryData(changed, entry, inflate) == Err(Corrupt) <==> entry.crc != 0
  {
    ClampedChanges(buffer, start, end, p, c);
    ChangedDataIsRefusedIff(buffer, changed, entry, Clamped(buffer, start, end), Clamped(changed, start, end), inflate);
  }

  lemma ChangedData(buffer: Bytes, entry: Entry, start: nat, p: nat, c: Byte)
    requires Holds(buffer, entry.localOffset, 30) && Get32(buffer, entry.localOffset) == LOCAL
    requires start == StartOf(buffer, entry) && start <= p < |buffer|
    ensures DataOf(buffer, entry) == Ok(Clamped(buffer, start, start + entry.compressedSize))
    ensures DataOf(buffer[p := c], entry) == Ok(Clamped(buffer[p := c], start, start + entry.compressedSize))
  {
    HeaderStays(buffer, buffer[p := c], entry, p, c);
    DataStarts(buffer, entry);
    DataStarts(buffer[p := c], entry);
  }

  lemma ChangedDataIsRefusedIff(buffer: Bytes, changed: Bytes, entry: Entry, was: Bytes, now: Bytes, inflate: Bytes -> Option<Bytes>)
    requires DataOf(buffer, entry) == Ok(was) && DataOf(changed, entry) == Ok(now) && Checksum(was) != Checksum(now)
    requires entry.kind == 0 && EntryData(buffer, entry, inflate).Ok?
    ensures EntryData(changed, entry, inflate) == Err(Corrupt) <==> entry.crc != 0
  {
    if entry.crc != 0 {
      WrongDataIsRefused(buffer, entry, was, inflate);
      WrongDataIsRefused(changed, entry, now, inflate);
    } else {
      SummedDataPasses(changed, entry, now, inflate);
    }
  }

  lemma ClampedChanges(buffer: Bytes, start: nat, end: nat, p: nat, c: Byte)
    requires start <= p < end && p < |buffer| && c != buffer[p]
    ensures Checksum(Clamped(buffer, start, end)) != Checksum(Clamped(buffer[p := c], start, end))
  {
    ClampedSplit(buffer, start, end, p, c);
    ChecksumSeesByte(buffer[start..p], buffer[p], c, buffer[p + 1..Least(end, |buffer|)]);
  }

  /** Two stored entries with the same header whose data differ only within four neighbouring
      bytes are not both accepted under a checksum that is not zero. */
  lemma ChangedBurstIsRefused(entry: Entry, a: Bytes, b: Bytes, head: Bytes, p: Bytes, q: Bytes, tail: Bytes, inflate: Bytes -> Option<Bytes>)
    requires entry.kind == 0 && entry.crc != 0 && |p| == |q| == 4 && p != q
    requires DataOf(a, entry) == Ok(head + p + tail) && DataOf(b, entry) == Ok(head + q + tail)
    ensures EntryData(a, entry, inflate).Ok? ==> EntryData(b, entry, inflate) == Err(Corrupt)
  {
    WrongDataIsRefused(a, entry, head + p + tail, inflate);
    WrongDataIsRefused(b, entry, head + q + tail, inflate);
    BurstSeen(head, p, q, tail);
  }

  lemma BitsOfThree(head: Bytes, p: Bytes, tail: Bytes)
    ensures Bits(head + p + tail) == Bits(head) + Bits(p) + Bits(tail)
  {
  }

  lemma BitsDiffer(p: Bytes, q: Bytes)
    requires |p| == |q| && p != q
    ensures Bits(p) != Bits(q)
  {
    var k :| 0 <= k < |p| && p[k] != q[k];
    if Bits(p) == Bits(q) {
      assert Bits(p)[k] == Bits(q)[k];
      BitsTell(p[k], q[k]);
    }
  }

  lemma BurstSeen(head: Bytes, p: Bytes, q: Bytes, tail: Bytes)
    requires |p| == |q| == 4 && p != q
    ensures Checksum(head + p + tail) != Checksum(head + q + tail)
  {
    BitsOfThree(head, p, tail);
    BitsOfThree(head, q, tail);
    BitsDiffer(p, q);
    Crc32.BurstChangesCrc(Bits(head), Bits(p), Bits(q), Bits(tail));
    if Checksum(head + p + tail) == Checksum(head + q + tail) {
      IntTells(Crc32.Crc(Bits(head + p + tail)), Crc32.Crc(Bits(head + q + tail)));
    }
  }
}
