/** stream/encode.ts on bytes: which identifiers are refused, how the others become one path
    component, and where those components lead. */
module PathEncoding {
  import opened Prelude

  type Byte = x: int | 0 <= x < 0x100
  type Bytes = seq<Byte>

  const TILDE: Byte := 0x7e
  const SMALL_H: Byte := 0x68
  const SLASH: Byte := 0x2f
  const BACKSLASH: Byte := 0x5c
  const DOT: Byte := 0x2e
  const MAX_ENCODED: nat := 200
  const MAX_RAW: nat := 1024

  // ---- Refusal -------------------------------------------------------------------------------

  datatype Fault = Empty | HasSeparator | HasDotSegment | HasControlByte | TooLong

  predicate IsControl(b: Byte) {
    b < 0x20 || b == 0x7f
  }

  predicate HasDots(raw: Bytes) {
    raw == [DOT] || exists i :: 0 <= i < |raw| - 1 && raw[i] == DOT && raw[i + 1] == DOT
  }

  predicate HasControl(raw: Bytes) {
    exists b <- raw :: IsControl(b)
  }

  /** units is the identifier's length in UTF-16 units, which is what the limit counts. */
  predicate Applies(fault: Fault, raw: Bytes, units: nat) {
    match fault
    case Empty => raw == []
    case HasSeparator => SLASH in raw || BACKSLASH in raw
    case HasDotSegment => HasDots(raw)
    case HasControlByte => HasControl(raw)
    case TooLong => raw != [] && units > MAX_RAW
  }

  /** componentFaults(): all that apply, each once. */
  method ComponentFaults(raw: Bytes, units: nat) returns (faults: seq<Fault>)
    ensures forall f :: f in faults <==> Applies(f, raw, units)
    ensures forall i, j :: 0 <= i < j < |faults| ==> faults[i] != faults[j]
  {
    if raw == [] {
      return [Empty];
    }
    faults := [];
    if SLASH in raw || BACKSLASH in raw {
      faults := faults + [HasSeparator];
    }
    if HasDots(raw) {
      faults := faults + [HasDotSegment];
    }
    var control := FindControl(raw);
    if control {
      faults := faults + [HasControlByte];
    }
    if units > MAX_RAW {
      faults := faults + [TooLong];
    }
  }

  method FindControl(raw: Bytes) returns (found: bool)
    ensures found == HasControl(raw)
  {
    for i := 0 to |raw|
      invariant forall k :: 0 <= k < i ==> !IsControl(raw[k])
    {
      if IsControl(raw[i]) {
        return true;
      }
    }
    return false;
  }

  // ---- Encoding ------------------------------------------------------------------------------

  predicate IsSafeByte(b: Byte) {
    0x41 <= b <= 0x5a || 0x61 <= b <= 0x7a || 0x30 <= b <= 0x39 || b == 0x5f || b == 0x2d
  }

  function UpperHex(n: nat): Byte
    requires n < 16
  {
    if n < 10 then 0x30 + n else 0x37 + n
  }

  function EncodedByte(b: Byte): Bytes {
    if IsSafeByte(b) then [b] else [TILDE, UpperHex(b / 16), UpperHex(b % 16)]
  }

  function Encoded(raw: Bytes): Bytes {
    if raw == [] then [] else Encoded(raw[..|raw| - 1]) + EncodedByte(raw[|raw| - 1])
  }

  predicate Hashed(raw: Bytes) {
    |Encoded(raw)| > MAX_ENCODED
  }

  /** A component: the encoding, or ~h and a digest of the identifier. */
  function Component(raw: Bytes, digest: Bytes -> Bytes): Bytes {
    if Hashed(raw) then [TILDE, SMALL_H] + digest(raw) else Encoded(raw)
  }

  method EncodeComponent(raw: Bytes, digest: Bytes -> Bytes) returns (component: Bytes)
    ensures component == Component(raw, digest)
  {
    component := [];
    for i := 0 to |raw|
      invariant component == Encoded(raw[..i])
    {
      assert raw[..i + 1][..i] == raw[..i];
      component := component + if IsSafeByte(raw[i]) then [raw[i]] else [TILDE, UpperHex(raw[i] / 16), UpperHex(raw[i] % 16)];
    }
    assert raw[..|raw|] == raw;
    if |component| > MAX_ENCODED {
      component := [TILDE, SMALL_H] + digest(raw);
    }
  }

  function HexValue(b: Byte): Option<nat> {
    if 0x30 <= b <= 0x39 then Some(b - 0x30)
    else if 0x41 <= b <= 0x46 then Some(b - 0x37)
    else if 0x61 <= b <= 0x66 then Some(b - 0x57)
    else None
  }

  /** The byte two characters after a tilde stand for; other says what parseInt makes of a pair
      that is not two hex digits. */
  function PairByte(pair: Bytes, other: Bytes -> Byte): Byte {
    if |pair| == 2 && HexValue(pair[0]).Some? && HexValue(pair[1]).Some?
    then 16 * HexValue(pair[0]).value + HexValue(pair[1]).value
    else other(pair)
  }

  predicate IsHashForm(component: Bytes) {
    [TILDE, SMALL_H] <= component
  }

  function Pair(s: Bytes): Bytes
    requires s != []
  {
    s[1..if |s| < 3 then |s| else 3]
  }

  function Decoded(s: Bytes, other: Bytes -> Byte): Bytes
    decreases |s|
  {
    if s == [] then []
    else if s[0] == TILDE then [PairByte(Pair(s), other)] + Decoded(if |s| < 3 then [] else s[3..], other)
    else [s[0]] + Decoded(s[1..], other)
  }

  function From(s: Bytes, i: nat): Bytes {
    if i < |s| then s[i..] else []
  }

  lemma DecodedFirst(s: Bytes, other: Bytes -> Byte)
    requires s != []
    ensures Decoded(s, other) ==
            if s[0] == TILDE then [PairByte(Pair(s), other)] + Decoded(if |s| < 3 then [] else s[3..], other)
            else [s[0]] + Decoded(s[1..], other)
  {
  }

  lemma FromTail(s: Bytes, i: nat, n: nat)
    requires i < |s|
    ensures From(s, i + n) == From(s[i..], n)
  {
  }

  lemma DecodedStep(s: Bytes, i: nat, done: Bytes, other: Bytes -> Byte)
    requires i < |s|
    ensures var tilde := s[i] == TILDE;
            var b := if tilde then PairByte(Pair(s[i..]), other) else s[i];
            done + Decoded(From(s, i), other) == done + [b] + Decoded(From(s, if tilde then i + 3 else i + 1), other)
  {
    var tail := s[i..];
    DecodedFirst(tail, other);
    FromTail(s, i, 1);
    FromTail(s, i, 3);
    assert From(tail, 1) == tail[1..] && From(tail, 3) == (if |tail| < 3 then [] else tail[3..]);
    var b := if s[i] == TILDE then PairByte(Pair(tail), other) else s[i];
    Assoc(done, [b], Decoded(From(s, if s[i] == TILDE then i + 3 else i + 1), other));
  }

  lemma PairIs(s: Bytes, i: nat)
    requires i < |s|
    ensures Pair(s[i..]) == s[i + 1..if i + 3 < |s| then i + 3 else |s|]
  {
  }

  method DecodeComponent(component: Bytes, other: Bytes -> Byte) returns (raw: Option<Bytes>)
    ensures raw == if IsHashForm(component) then None else Some(Decoded(component, other))
  {
    if IsHashForm(component) {
      return None;
    }
    var bytes: Bytes := [];
    var i := 0;
    assert From(component, 0) == component;
    while i < |component|
      invariant bytes + Decoded(From(component, i), other) == Decoded(component, other)
      decreases |component| - i
    {
      DecodedStep(component, i, bytes, other);
      if component[i] == TILDE {
        PairIs(component, i);
        bytes := bytes + [PairByte(component[i + 1..if i + 3 < |component| then i + 3 else |component|], other)];
        i := i + 2;
      } else {
        bytes := bytes + [component[i]];
      }
      i := i + 1;
    }
    assert bytes + [] == bytes;
    return Some(bytes);
  }

  // ---- Decoding undoes encoding -----------------------------------------------------------------

  lemma Assoc(a: Bytes, b: Bytes, c: Bytes)
    ensures a + b + c == a + (b + c)
  {
  }

  lemma {:induction false} EncodedJoins(a: Bytes, b: Bytes)
    ensures Encoded(a + b) == Encoded(a) + Encoded(b)
  {
    if b == [] {
      assert a + b == a && Encoded(a) + [] == Encoded(a);
    } else {
      var before, last := b[..|b| - 1], b[|b| - 1];
      EncodedJoins(a, before);
      assert (a + b)[..|a + b| - 1] == a + before && (a + b)[|a + b| - 1] == last;
      Assoc(Encoded(a), Encoded(before), EncodedByte(last));
    }
  }

  lemma EncodedFirst(raw: Bytes)
    requires raw != []
    ensures Encoded(raw) == EncodedByte(raw[0]) + Encoded(raw[1..])
  {
    assert raw == [raw[0]] + raw[1..];
    EncodedJoins([raw[0]], raw[1..]);
    EncodedOne(raw[0]);
  }

  lemma EncodedOne(b: Byte)
    ensures Encoded([b]) == EncodedByte(b)
  {
    assert [b][..0] == [];
    assert Encoded([]) + EncodedByte(b) == EncodedByte(b);
  }

  lemma PairBack(b: Byte, other: Bytes -> Byte)
    ensures PairByte([UpperHex(b / 16), UpperHex(b % 16)], other) == b
  {
  }

  lemma ByteBack(b: Byte, rest: Bytes, other: Bytes -> Byte)
    ensures Decoded(EncodedByte(b) + rest, other) == [b] + Decoded(rest, other)
  {
    var s := EncodedByte(b) + rest;
    if IsSafeByte(b) {
      assert s[1..] == rest;
    } else {
      assert s[3..] == rest && Pair(s) == [UpperHex(b / 16), UpperHex(b % 16)];
      PairBack(b, other);
    }
  }

  lemma {:induction false} DecodedEncoded(raw: Bytes, other: Bytes -> Byte)
    ensures Decoded(Encoded(raw), other) == raw
    decreases |raw|
  {
    if raw != [] {
      DecodedEncoded(raw[1..], other);
      EncodedFirst(raw);
      ByteBack(raw[0], Encoded(raw[1..]), other);
    }
  }

  lemma {:induction false} EncodedSafe(raw: Bytes)
    ensures forall b <- Encoded(raw) :: IsSafeByte(b) || b == TILDE
    ensures raw != [] ==> Encoded(raw) != []
  {
    if raw != [] {
      EncodedSafe(raw[..|raw| - 1]);
    }
  }

  lemma NeverHashForm(raw: Bytes)
    ensures !IsHashForm(Encoded(raw))
  {
    if raw != [] {
      EncodedFirst(raw);
      FirstByteForm(raw[0], Encoded(raw[1..]));
    }
  }

  lemma FirstByteForm(b: Byte, rest: Bytes)
    ensures !IsHashForm(EncodedByte(b) + rest)
  {
    var s := EncodedByte(b) + rest;
    if IsSafeByte(b) {
      assert s[0] == b;
    } else {
      assert s[1] == UpperHex(b / 16);
    }
  }

  /** decodeComponent inverts encodeComponent exactly when the component is not hashed, and it
      refuses the hashed ones. */
  lemma DecodingUndoesEncodingIff(raw: Bytes, digest: Bytes -> Bytes, other: Bytes -> Byte)
    ensures !IsHashForm(Component(raw, digest)) <==> !Hashed(raw)
    ensures !Hashed(raw) ==> Decoded(Component(raw, digest), other) == raw
  {
    NeverHashForm(raw);
    DecodedEncoded(raw, other);
  }

  /** Two identifiers share a component only if both are hashed to the same digest. */
  lemma ComponentsDiffer(a: Bytes, b: Bytes, digest: Bytes -> Bytes, other: Bytes -> Byte)
    requires Component(a, digest) == Component(b, digest) && a != b
    ensures Hashed(a) && Hashed(b) && digest(a) == digest(b)
  {
    DecodingUndoesEncodingIff(a, digest, other);
    DecodingUndoesEncodingIff(b, digest, other);
    if Hashed(a) && Hashed(b) {
      assert digest(a) == Component(a, digest)[2..] == Component(b, digest)[2..] == digest(b);
    }
  }

  // ---- Where components lead ------------------------------------------------------------------------

  type Segments = seq<Bytes>

  /** An absolute path as path.resolve prints it. */
  function PathText(segments: Segments): Bytes {
    if segments == [] then [SLASH] else Printed(segments)
  }

  function Printed(segments: Segments): Bytes {
    if segments == [] then [] else Printed(segments[..|segments| - 1]) + [SLASH] + segments[|segments| - 1]
  }

  function Split(s: Bytes): Segments {
    if s == [] then [[]]
    else
      var before := Split(s[..|s| - 1]);
      if s[|s| - 1] == SLASH then before + [[]]
      else if before == [] then [[s[|s| - 1]]]
      else before[..|before| - 1] + [before[|before| - 1] + [s[|s| - 1]]]
  }

  function Walk(at: Segments, parts: Segments): Segments {
    if parts == [] then at
    else
      var here, part := Walk(at, parts[..|parts| - 1]), parts[|parts| - 1];
      if part == [] || part == [DOT] then here
      else if part == [DOT, DOT] then (if here == [] then [] else here[..|here| - 1])
      else here + [part]
  }

  /** path.resolve: each component is walked from where the ones before it led, or from the top
      if it starts with a slash. */
  function Resolved(root: Segments, components: seq<Bytes>): Segments {
    if components == [] then root
    else
      var component := components[|components| - 1];
      Walk(if component != [] && component[0] == SLASH then [] else Resolved(root, components[..|components| - 1]), Split(component))
  }

  /** resolveUnderStore(): None when the result lies outside, which is decided on the text. */
  function ResolvedUnderStore(root: Segments, components: seq<Bytes>): Option<Segments> {
    var resolved := Resolved(root, components);
    if PathText(resolved) == PathText(root) || PathText(root) + [SLASH] <= PathText(resolved) then Some(resolved) else None
  }

  predicate IsPlainSegment(s: Bytes) {
    s != [] && SLASH !in s && s != [DOT] && s != [DOT, DOT]
  }

  lemma {:induction false} SplitPlain(s: Bytes)
    requires SLASH !in s
    ensures Split(s) == [s]
  {
    if s != [] {
      SplitPlain(s[..|s| - 1]);
      assert s[|s| - 1] in s && s[..|s| - 1] + [s[|s| - 1]] == s;
    }
  }

  lemma WalkOne(at: Segments, part: Bytes)
    requires IsPlainSegment(part)
    ensures Walk(at, [part]) == at + [part]
  {
    assert [part][..0] == [];
    assert Walk(at, []) == at;
  }

  lemma {:induction false} PlainComponentsAppend(root: Segments, components: seq<Bytes>)
    requires forall c <- components :: IsPlainSegment(c)
    ensures Resolved(root, components) == root + components
  {
    if components == [] {
      assert root + [] == root;
    } else {
      var before, last := components[..|components| - 1], components[|components| - 1];
      PlainComponentsAppend(root, before);
      assert last in components && last[0] in last;
      SplitPlain(last);
      WalkOne(root + before, last);
      assert before + [last] == components;
      assert root + before + [last] == root + components;
    }
  }

  lemma {:induction false} PrintedBegins(root: Segments, more: Segments)
    requires more != []
    ensures Printed(root) + [SLASH] <= Printed(root + more)
  {
    var before := more[..|more| - 1];
    assert (root + more)[..|root + more| - 1] == root + before;
    if before == [] {
      assert root + before == root;
    } else {
      PrintedBegins(root, before);
    }
  }

  /** Components made from identifiers are plain: no separator, no dot, nothing empty. */
  lemma ComponentIsPlain(raw: Bytes, digest: Bytes -> Bytes)
    requires raw != [] && forall b <- digest(raw) :: IsSafeByte(b)
    ensures IsPlainSegment(Component(raw, digest))
    ensures forall b <- Component(raw, digest) :: IsSafeByte(b) || b == TILDE
  {
    EncodedSafe(raw);
    var c := Component(raw, digest);
    assert c[0] in c;
    assert !IsSafeByte(DOT) && !IsSafeByte(SLASH);
  }

  function Components(raws: seq<Bytes>, digest: Bytes -> Bytes): seq<Bytes> {
    seq(|raws|, i requires 0 <= i < |raws| => Component(raws[i], digest))
  }

  /** What an identifier must be, and a digest's text, for the path of its component. */
  ghost predicate Encodable(raws: seq<Bytes>, digest: Bytes -> Bytes) {
    raws != [] && (forall raw <- raws :: raw != []) && forall raw: Bytes, b: Byte :: b in digest(raw) ==> IsSafeByte(b)
  }

  lemma ComponentsArePlain(raws: seq<Bytes>, digest: Bytes -> Bytes)
    requires Encodable(raws, digest)
    ensures Components(raws, digest) != [] && forall c <- Components(raws, digest) :: IsPlainSegment(c)
  {
    forall c | c in Components(raws, digest) ensures IsPlainSegment(c) {
      var i :| 0 <= i < |raws| && c == Component(raws[i], digest);
      assert raws[i] in raws;
      ComponentIsPlain(raws[i], digest);
    }
  }

  lemma PlainLeadsBelow(root: Segments, components: seq<Bytes>)
    requires components != [] && forall c <- components :: IsPlainSegment(c)
    ensures ResolvedUnderStore(root, components) == if root == [] then None else Some(root + components)
  {
    PlainComponentsAppend(root, components);
    PrintedBegins(root, components);
    if root == [] {
      assert root + components == components;
      TopHasOneSlash(components);
    } else {
      assert root + components != [];
    }
  }

  /** Under the root directory no path begins with two slashes. */
  lemma {:induction false} TopHasOneSlash(components: seq<Bytes>)
    requires components != [] && forall c <- components :: IsPlainSegment(c)
    ensures |Printed(components)| > 1 && Printed(components)[0] == SLASH && Printed(components)[1] != SLASH
    ensures !([SLASH, SLASH] <= Printed(components)) && Printed(components) != [SLASH]
  {
    var before, last := components[..|components| - 1], components[|components| - 1];
    assert last in components && last[0] in last;
    if before == [] {
      assert Printed(components) == [SLASH] + last;
    } else {
      TopHasOneSlash(before);
    }
  }

  /** Any list of identifiers, encoded, resolves to exactly those components below the store, and
      so strictly inside it; the one store for which the check refuses them is the file system's
      root, because its path already ends in the separator the check looks for. */
  lemma IdentifiersLeadBelowIff(root: Segments, raws: seq<Bytes>, digest: Bytes -> Bytes)
    requires Encodable(raws, digest)
    ensures ResolvedUnderStore(root, Components(raws, digest)) == Some(root + Components(raws, digest)) <==> root != []
  {
    ComponentsArePlain(raws, digest);
    PlainLeadsBelow(root, Components(raws, digest));
  }

  /** Lists of identifiers that are resolved to one place below the store are the same list, when
      none of one of them is too long to encode. */
  lemma PathsDiffer(root: Segments, a: seq<Bytes>, b: seq<Bytes>, digest: Bytes -> Bytes, other: Bytes -> Byte)
    requires Encodable(a, digest) && Encodable(b, digest) && forall raw <- a :: !Hashed(raw)
    requires ResolvedUnderStore(root, Components(a, digest)).Some?
    requires ResolvedUnderStore(root, Components(a, digest)) == ResolvedUnderStore(root, Components(b, digest))
    ensures a == b
  {
    var ca, cb := Components(a, digest), Components(b, digest);
    ComponentsArePlain(a, digest);
    ComponentsArePlain(b, digest);
    PlainLeadsBelow(root, ca);
    PlainLeadsBelow(root, cb);
    assert ca == (root + ca)[|root|..] == (root + cb)[|root|..] == cb;
    forall i | 0 <= i < |a| ensures a[i] == b[i] {
      assert ca[i] == cb[i] && a[i] in a;
      if a[i] != b[i] {
        ComponentsDiffer(a[i], b[i], digest, other);
        assert false;
      }
    }
  }
}
