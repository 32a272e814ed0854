/** The zip reader of import/zip.ts: where the directory is, what it names, what each entry
    holds. Buffers and names are bytes; a read outside the buffer is a RangeError. */
module Zip {
  import opened Prelude
  import Crc32

  type Byte = x: int | 0 <= x < 0x100
  type Bytes = seq<Byte>

  datatype Fault = RangeError | NoDirectory | NoWideDirectory | EntryMissing(index: nat) | NotAnEntry | Unsupported(kind: nat)
    | InflateFailed | Corrupt | OutsideMedia(names: seq<Bytes>) | MessagesMissing
  datatype Result<+T> = Ok(value: T) | Err(fault: Fault)

  datatype Entry = Entry(name: Bytes, kind: nat, crc: nat, compressedSize: nat, size: nat, localOffset: nat)
  datatype Directory = Directory(count: nat, offset: nat)
  datatype Found = Found(entries: seq<Entry>, at: nat)
  datatype Export = Export(messages: Entry, media: map<Bytes, Entry>)

  const EOCD: nat := 0x06054b50
  const EOCD64: nat := 0x06064b50
  const EOCD64_LOCATOR: nat := 0x07064b50
  const CENTRAL: nat := 0x02014b50
  const LOCAL: nat := 0x04034b50

  // ---- Little-endian reads ----------------------------------------------------------------------

  predicate Holds(buffer: Bytes, at: int, width: nat) {
    0 <= at && at + width <= |buffer|
  }

  /** The number that bytes stand for, least significant first. */
  function Number(bytes: Bytes): nat {
    if bytes == [] then 0 else bytes[0] + 0x100 * Number(bytes[1..])
  }

  function Get16(buffer: Bytes, at: int): nat
    requires Holds(buffer, at, 2)
  {
    Number(buffer[at..at + 2])
  }

  function Get32(buffer: Bytes, at: int): nat
    requires Holds(buffer, at, 4)
  {
    Number(buffer[at..at + 4])
  }

  function Get64(buffer: Bytes, at: int): nat
    requires Holds(buffer, at, 8)
  {
    Number(buffer[at..at + 8])
  }

  function Least(a: nat, b: nat): nat {
    if a < b then a else b
  }

  /** subarray() and toString() clamp both ends to the buffer. */
  function Clamped(buffer: Bytes, from: nat, to: nat): Bytes
    requires from <= to
  {
    buffer[Least(from, |buffer|)..Least(to, |buffer|)]
  }

  // ---- Finding the directory ----------------------------------------------------------------------

  predicate IsEnd(buffer: Bytes, at: int) {
    Holds(buffer, at, 22) && Get32(buffer, at) == EOCD
  }

  function Earliest(buffer: Bytes): nat {
    if |buffer| < 66_000 then 0 else |buffer| - 66_000
  }

  /** The last position, not too far from the end, that can hold an end record. */
  ghost predicate IsLastEnd(buffer: Bytes, found: int) {
    if found < 0 then found == -1 && forall at :: Earliest(buffer) <= at ==> !IsEnd(buffer, at)
    else Earliest(buffer) <= found && IsEnd(buffer, found) && forall at :: found < at ==> !IsEnd(buffer, at)
  }

  method FindEndOfCentralDirectory(buffer: Bytes) returns (found: int)
    ensures IsLastEnd(buffer, found)
  {
    var earliest := Earliest(buffer);
    var at := |buffer| - 22;
    while at >= earliest
      invariant at <= |buffer| - 22
      invariant forall k :: at < k ==> !IsEnd(buffer, k)
      decreases at
    {
      if Get32(buffer, at) == EOCD {
        return at;
      }
      at := at - 1;
    }
    return -1;
  }

  /** The 64-bit directory that a locator before the end record points at. */
  function WideDirectory(buffer: Bytes, end: nat): Result<Directory> {
    var locator := end - 20;
    if locator < 0 then Err(NoWideDirectory)
    else if !Holds(buffer, locator, 4) then Err(RangeError)
    else if Get32(buffer, locator) != EOCD64_LOCATOR then Err(NoWideDirectory)
    else if !Holds(buffer, locator + 8, 8) then Err(RangeError)
    else
      var at := Get64(buffer, locator + 8);
      if !Holds(buffer, at, 4) then Err(RangeError)
      else if Get32(buffer, at) != EOCD64 then Err(NoWideDirectory)
      else if !Holds(buffer, at + 48, 8) then Err(RangeError)
      else Ok(Directory(Get64(buffer, at + 32), Get64(buffer, at + 48)))
  }

  function DirectoryAt(buffer: Bytes, end: int): Result<Directory>
    requires end < 0 || IsEnd(buffer, end)
  {
    if end < 0 then Err(NoDirectory)
    else
      var count, offset := Get16(buffer, end + 10), Get32(buffer, end + 16);
      if count == 0xffff || offset == 0xffff_ffff then WideDirectory(buffer, end)
      else Ok(Directory(count, offset))
  }

  /** There is one last end record. */
  lemma LastEndIsUnique(buffer: Bytes, a: int, b: int)
    requires IsLastEnd(buffer, a) && IsLastEnd(buffer, b)
    ensures a == b
  {
  }

  method DirectoryOf(buffer: Bytes) returns (directory: Result<Directory>)
    ensures forall end :: IsLastEnd(buffer, end) ==> directory == DirectoryAt(buffer, end)
  {
    var eocd := FindEndOfCentralDirectory(buffer);
    forall end | IsLastEnd(buffer, end) ensures end == eocd {
      LastEndIsUnique(buffer, end, eocd);
    }
    if eocd < 0 {
      return Err(NoDirectory);
    }
    var count := Get16(buffer, eocd + 10);
    var offset := Get32(buffer, eocd + 16);
    if count == 0xffff || offset == 0xffff_ffff {
      return WideDirectory(buffer, eocd);
    }
    return Ok(Directory(count, offset));
  }

  // ---- What the directory names --------------------------------------------------------------------

  datatype Fields = Fields(kind: nat, crc: nat, compressedSize: nat, size: nat,
                           nameLength: nat, extraLength: nat, commentLength: nat, localOffset: nat)

  function FieldsAt(buffer: Bytes, at: nat): Fields
    requires Holds(buffer, at, 46)
  {
    Fields(Get16(buffer, at + 10), Get32(buffer, at + 16), Get32(buffer, at + 20), Get32(buffer, at + 24),
           Get16(buffer, at + 28), Get16(buffer, at + 30), Get16(buffer, at + 32), Get32(buffer, at + 42))
  }

  function Named(buffer: Bytes, at: nat, f: Fields): (Entry, nat) {
    (Entry(Clamped(buffer, at + 46, at + 46 + f.nameLength), f.kind, f.crc, f.compressedSize, f.size, f.localOffset),
     at + 46 + f.nameLength + f.extraLength + f.commentLength)
  }

  /** One record of the central directory, and where the next begins. */
  function CentralAt(buffer: Bytes, at: nat, index: nat): Result<(Entry, nat)> {
    if !Holds(buffer, at, 4) then Err(RangeError)
    else if Get32(buffer, at) != CENTRAL then Err(EntryMissing(index))
    else if !Holds(buffer, at, 46) then Err(RangeError)
    else Ok(Named(buffer, at, FieldsAt(buffer, at)))
  }

  function EntriesUpTo(buffer: Bytes, offset: nat, n: nat): Result<Found> {
    if n == 0 then Ok(Found([], offset))
    else
      match EntriesUpTo(buffer, offset, n - 1)
      case Err(fault) => Err(fault)
      case Ok(before) =>
        match CentralAt(buffer, before.at, n)
        case Err(fault) => Err(fault)
        case Ok((entry, next)) => Ok(Found(before.entries + [entry], next))
  }

  lemma {:induction false} FaultsStay(buffer: Bytes, offset: nat, m: nat, n: nat)
    requires m <= n && EntriesUpTo(buffer, offset, m).Err?
    ensures EntriesUpTo(buffer, offset, n) == EntriesUpTo(buffer, offset, m)
  {
    if m < n {
      FaultsStay(buffer, offset, m, n - 1);
    }
  }

  /** What entries() makes of a directory. */
  function EntriesOfDirectory(buffer: Bytes, directory: Result<Directory>): Result<seq<Entry>> {
    match directory
    case Err(fault) => Err(fault)
    case Ok(found) =>
      match EntriesUpTo(buffer, found.offset, found.count)
      case Err(fault) => Err(fault)
      case Ok(read) => Ok(read.entries)
  }

  method ReadDirectory(buffer: Bytes, directory: Directory) returns (entries: Result<seq<Entry>>)
    ensures entries == EntriesOfDirectory(buffer, Ok(directory))
  {
    var found: seq<Entry> := [];
    var at := directory.offset;
    for i := 0 to directory.count
      invariant EntriesUpTo(buffer, directory.offset, i) == Ok(Found(found, at))
    {
      var one := CentralAt(buffer, at, i + 1);
      if one.Err? {
        FaultsStay(buffer, directory.offset, i + 1, directory.count);
        return Err(one.fault);
      }
      found := found + [one.value.0];
      at := one.value.1;
    }
    return Ok(found);
  }

  method Entries(buffer: Bytes) returns (entries: Result<seq<Entry>>)
    ensures forall end :: IsLastEnd(buffer, end) ==> entries == EntriesOfDirectory(buffer, DirectoryAt(buffer, end))
  {
    var directory := DirectoryOf(buffer);
    if directory.Err? {
      return Err(directory.fault);
    }
    entries := ReadDirectory(buffer, directory.value);
  }

  // ---- Which entries are read at all ------------------------------------------------------------------

  datatype Kind = Messages | Folder | Media

  const MESSAGES_ENTRY: Bytes := [0x6d, 0x65, 0x73, 0x73, 0x61, 0x67, 0x65, 0x73, 0x2e, 0x6a, 0x73, 0x6f, 0x6e]
  const MEDIA_PREFIX: Bytes := [0x6d, 0x65, 0x64, 0x69, 0x61, 0x2f]
  const SLASH: Byte := 0x2f
  const BACKSLASH: Byte := 0x5c
  const DOT: Byte := 0x2e
  const COLON: Byte := 0x3a

  predicate IsLetter(b: Byte) {
    0x41 <= b <= 0x5a || 0x61 <= b <= 0x7a
  }

  /** A part between slashes that is one dot or two. */
  predicate HasDotSegment(name: Bytes) {
    exists i :: 0 <= i < |name| && (i == 0 || name[i - 1] == SLASH) && name[i] == DOT
      && (i + 1 == |name| || name[i + 1] == SLASH || (name[i + 1] == DOT && (i + 2 == |name| || name[i + 2] == SLASH)))
  }

  function EntryKind(name: Bytes): Option<Kind> {
    if name == [] || BACKSLASH in name || name[0] == SLASH then None
    else if |name| >= 2 && IsLetter(name[0]) && name[1] == COLON then None
    else if exists b <- name :: b < 0x20 || b == 0x7f then None
    else if HasDotSegment(name) then None
    else if name == MESSAGES_ENTRY then Some(Messages)
    else if name == MEDIA_PREFIX then Some(Folder)
    else if name[|name| - 1] == SLASH then None
    else if MEDIA_PREFIX < name then Some(Media)
    else None
  }

  // ---- Reading one entry --------------------------------------------------------------------------------

  /** The eight bits of a byte, from the highest down. */
  datatype Octet = Octet(b7: bool, b6: bool, b5: bool, b4: bool, b3: bool, b2: bool, b1: bool, b0: bool)

  function Pack(o: Octet): bv8 {
    (if o.b7 then 0x80 else 0) | (if o.b6 then 0x40 else 0) | (if o.b5 then 0x20 else 0) | (if o.b4 then 0x10 else 0)
    | (if o.b3 then 0x08 else 0) | (if o.b2 then 0x04 else 0) | (if o.b1 then 0x02 else 0) | (if o.b0 then 0x01 else 0)
  }

  function Rest(r: nat, weight: nat): nat {
    if r >= weight then r - weight else r
  }

  function OctetOf(b: Byte): Octet {
    var r6 := Rest(b, 128);
    var r5 := Rest(r6, 64);
    var r4 := Rest(r5, 32);
    var r3 := Rest(r4, 16);
    var r2 := Rest(r3, 8);
    var r1 := Rest(r2, 4);
    var r0 := Rest(r1, 2);
    Octet(b >= 128, r6 >= 64, r5 >= 32, r4 >= 16, r3 >= 8, r2 >= 4, r1 >= 2, r0 >= 1)
  }

  function AsBits(b: Byte): bv8 {
    Pack(OctetOf(b))
  }

  function Bits(data: Bytes): seq<bv8> {
    seq(|data|, i requires 0 <= i < |data| => AsBits(data[i]))
  }

  function Checksum(data: Bytes): nat {
    Crc32.Crc(Bits(data)) as int
  }

  function Unpacked(kind: nat, raw: Bytes, inflate: Bytes -> Option<Bytes>): Result<Bytes> {
    if kind == 0 then Ok(raw)
    else if kind == 8 then (match inflate(raw) case Some(data) => Ok(data) case None => Err(InflateFailed))
    else Err(Unsupported(kind))
  }

  /** Where an entry's bytes are, or why they cannot be found. */
  function DataOf(buffer: Bytes, entry: Entry): Result<Bytes> {
    if !Holds(buffer, entry.localOffset, 4) then Err(RangeError)
    else if Get32(buffer, entry.localOffset) != LOCAL then Err(NotAnEntry)
    else if !Holds(buffer, entry.localOffset, 30) then Err(RangeError)
    else
      var start := entry.localOffset + 30 + Get16(buffer, entry.localOffset + 26) + Get16(buffer, entry.localOffset + 28);
      Ok(Clamped(buffer, start, start + entry.compressedSize))
  }

  function EntryData(buffer: Bytes, entry: Entry, inflate: Bytes -> Option<Bytes>): Result<Bytes> {
    match DataOf(buffer, entry)
    case Err(fault) => Err(fault)
    case Ok(raw) =>
      match Unpacked(entry.kind, raw, inflate)
      case Err(fault) => Err(fault)
      case Ok(data) => if entry.crc != 0 && Checksum(data) != entry.crc then Err(Corrupt) else Ok(data)
  }

  method ReadEntry(buffer: Bytes, entry: Entry, inflate: Bytes -> Option<Bytes>) returns (data: Result<Bytes>)
    ensures data == EntryData(buffer, entry, inflate)
  {
    var raw := DataOf(buffer, entry);
    if raw.Err? {
      return Err(raw.fault);
    }
    data := Unpacked(entry.kind, raw.value, inflate);
    if data.Err? || entry.crc == 0 {
      return;
    }
    var crc := Crc32.Checksum(Bits(data.value));
    if crc as int != entry.crc {
      return Err(Corrupt);
    }
  }

  // ---- Opening an export ----------------------------------------------------------------------------------

  /** The names that are neither the messages file nor under media/, in directory order. */
  function Refused(kind: Bytes -> Option<Kind>, entries: seq<Entry>): seq<Bytes> {
    if entries == [] then []
    else
      var last := entries[|entries| - 1].name;
      Refused(kind, entries[..|entries| - 1]) + if kind(last).None? then [last] else []
  }

  /** A later entry of the same name takes the earlier one's place. */
  function MediaOf(kind: Bytes -> Option<Kind>, entries: seq<Entry>): map<Bytes, Entry> {
    if entries == [] then map[]
    else
      var last := entries[|entries| - 1];
      var before := MediaOf(kind, entries[..|entries| - 1]);
      if kind(last.name) == Some(Media) then before[last.name := last] else before
  }

  function MessagesOf(kind: Bytes -> Option<Kind>, entries: seq<Entry>): Option<Entry> {
    if entries == [] then None
    else if kind(entries[|entries| - 1].name) == Some(Messages) then Some(entries[|entries| - 1])
    else MessagesOf(kind, entries[..|entries| - 1])
  }

  function Opened(entries: seq<Entry>): Result<Export> {
    if Refused(EntryKind, entries) != [] then Err(OutsideMedia(Refused(EntryKind, entries)))
    else if MessagesOf(EntryKind, entries).None? then Err(MessagesMissing)
    else Ok(Export(MessagesOf(EntryKind, entries).value, MediaOf(EntryKind, entries)))
  }

  /** What open() makes of a buffer whose end record was found at end. */
  function OpenedAt(buffer: Bytes, end: int): Result<Export>
    requires end < 0 || IsEnd(buffer, end)
  {
    match EntriesOfDirectory(buffer, DirectoryAt(buffer, end))
    case Err(fault) => Err(fault)
    case Ok(entries) => Opened(entries)
  }

  /** The loop of open(): what is refused, what is media, and where the messages are. */
  method Sort(kind: Bytes -> Option<Kind>, entries: seq<Entry>)
    returns (refused: seq<Bytes>, media: map<Bytes, Entry>, messages: Option<Entry>)
    ensures refused == Refused(kind, entries) && media == MediaOf(kind, entries) && messages == MessagesOf(kind, entries)
  {
    refused, media, messages := [], map[], None;
    for i := 0 to |entries|
      invariant refused == Refused(kind, entries[..i]) && media == MediaOf(kind, entries[..i])
      invariant messages == MessagesOf(kind, entries[..i])
    {
      assert entries[..i + 1][..i] == entries[..i];
      var entry := entries[i];
      match kind(entry.name)
      case None => refused := refused + [entry.name];
      case Some(Messages) => messages := Some(entry);
      case Some(Media) => media := media[entry.name := entry];
      case Some(Folder) =>
    }
    assert entries[..|entries|] == entries;
  }

  method Open(buffer: Bytes) returns (result: Result<Export>)
    ensures forall end :: IsLastEnd(buffer, end) ==> result == OpenedAt(buffer, end)
  {
    var all := Entries(buffer);
    if all.Err? {
      return Err(all.fault);
    }
    var refused, media, messages := Sort(EntryKind, all.value);
    if refused != [] {
      return Err(OutsideMedia(refused));
    }
    if messages.None? {
      return Err(MessagesMissing);
    }
    return Ok(Export(messages.value, media));
  }
}
