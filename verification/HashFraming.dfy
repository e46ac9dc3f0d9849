/** The bytes that the canonical multipart hash is taken of: length-prefixed fields, then the file's digest. The
    digest of these bytes tells two requests apart exactly if the bytes do, so the framing must be injective. */
module HashFraming {
  import opened Common

  type Byte = b: int | 0 <= b < 256

  type Bytes = seq<Byte>

  datatype Part = Part(name: Bytes, value: Bytes)

  const FILE_SHA256: Bytes := [102, 105, 108, 101, 83, 104, 97, 50, 53, 54]  // "fileSha256"

  const LENGTH_LIMIT := 0x1_0000_0000_0000_0000

  function Pow256(width: nat): (p: nat)
    ensures p >= 1
  {
    if width == 0 then 1 else 256 * Pow256(width - 1)
  }

  /** The low `width` bytes of a number, the most significant first. */
  function BigEndian(n: nat, width: nat): (r: Bytes)
    ensures |r| == width
    decreases width
  {
    if width == 0 then [] else BigEndian(n / 256, width - 1) + [n % 256]
  }

  function Number(b: Bytes): nat
    decreases |b|
  {
    if b == [] then 0 else 256 * Number(b[..|b| - 1]) + b[|b| - 1]
  }

  lemma {:induction false} NumberOfBigEndian(n: nat, width: nat)
    requires n < Pow256(width)
    ensures Number(BigEndian(n, width)) == n
    decreases width
  {
    if width > 0 {
      NumberOfBigEndian(n / 256, width - 1);
      assert BigEndian(n, width)[..width - 1] == BigEndian(n / 256, width - 1);
    }
  }

  lemma EightBytes()
    ensures Pow256(8) == LENGTH_LIMIT
  {
    assert Pow256(4) == 0x1_0000_0000;
  }

  /** The number that four bytes stand for, the most significant first. */
  function Word(a: int, b: int, c: int, d: int): int { 0x100_0000 * a + 0x1_0000 * b + 0x100 * c + d }

  lemma FourDigits(b: Bytes)
    requires |b| >= 4
    ensures var n := |b|;
            Number(b) == 0x1_0000_0000 * Number(b[..n - 4]) + Word(b[n - 4], b[n - 3], b[n - 2], b[n - 1])
  {
    var n := |b|;
    assert b[..n - 1][..n - 2] == b[..n - 2] && b[..n - 2][..n - 3] == b[..n - 3] && b[..n - 3][..n - 4] == b[..n - 4];
  }

  /** Eight bytes, the most significant first. */
  lemma EightDigits(b: Bytes)
    requires |b| == 8
    ensures Number(b) == 0x1_0000_0000 * Word(b[0], b[1], b[2], b[3]) + Word(b[4], b[5], b[6], b[7])
  {
    FourDigits(b);
    FourDigits(b[..4]);
    assert b[..4][..0] == [] && Number([]) == 0;
    hide Number;
  }

  function Prefixed(b: Bytes): Bytes { BigEndian(|b|, 8) + b }

  function Frame(p: Part): Bytes { Prefixed(p.name) + Prefixed(p.value) }

  function Frames(parts: seq<Part>): Bytes
    decreases |parts|
  {
    if parts == [] then [] else Frames(parts[..|parts| - 1]) + Frame(parts[|parts| - 1])
  }

  function PreImage(fields: seq<Part>, fileHash: Bytes): Bytes {
    Frames(fields) + Frame(Part(FILE_SHA256, fileHash))
  }

  predicate Short(p: Part) { |p.name| < LENGTH_LIMIT && |p.value| < LENGTH_LIMIT }

  // ---------------------------------------------------------------------------------- decoding

  datatype Split = Split(head: Bytes, rest: Bytes)

  /** Takes one length-prefixed string off the front. */
  function TakePrefixed(b: Bytes): (r: Option<Split>)
    ensures r.Some? ==> |r.value.rest| < |b|
  {
    if |b| < 8 then None else
    var n := Number(b[..8]);
    if |b| < 8 + n then None else Some(Split(b[8..8 + n], b[8 + n..]))
  }

  function Parse(b: Bytes): Option<seq<Part>>
    decreases |b|
  {
    if b == [] then Some([]) else
    var name := TakePrefixed(b);
    if name.None? then None else
    var value := TakePrefixed(name.value.rest);
    if value.None? then None else
    var rest := Parse(value.value.rest);
    if rest.None? then None else Some([Part(name.value.head, value.value.head)] + rest.value)
  }

  /** The fields and the file hash that a pre-image was made of: the file hash is its last part. */
  function Decode(b: Bytes): Option<(seq<Part>, Bytes)> {
    var parts := Parse(b);
    if parts.None? || parts.value == [] || parts.value[|parts.value| - 1].name != FILE_SHA256 then None
    else Some((parts.value[..|parts.value| - 1], parts.value[|parts.value| - 1].value))
  }

  lemma TakeBack(s: Bytes, rest: Bytes)
    requires |s| < LENGTH_LIMIT
    ensures TakePrefixed(Prefixed(s) + rest) == Some(Split(s, rest))
  {
    var b := Prefixed(s) + rest;
    EightBytes();
    NumberOfBigEndian(|s|, 8);
    assert b[..8] == BigEndian(|s|, 8);
    assert b[8..8 + |s|] == s;
    assert b[8 + |s|..] == rest;
  }

  lemma ParseFrame(p: Part, rest: Bytes)
    requires Short(p) && Parse(rest).Some?
    ensures Parse(Frame(p) + rest) == Some([p] + Parse(rest).value)
  {
    assert Frame(p) + rest == Prefixed(p.name) + (Prefixed(p.value) + rest);
    TakeBack(p.name, Prefixed(p.value) + rest);
    TakeBack(p.value, rest);
  }

  lemma {:induction false} ParseFrames(parts: seq<Part>, rest: Bytes)
    requires (forall i :: 0 <= i < |parts| ==> Short(parts[i])) && Parse(rest).Some?
    ensures Parse(Frames(parts) + rest) == Some(parts + Parse(rest).value)
    decreases |parts|
  {
    hide Frame, Parse;
    if parts == [] {
      assert Frames(parts) + rest == rest && parts + Parse(rest).value == Parse(rest).value;
    } else {
      var front, last := parts[..|parts| - 1], parts[|parts| - 1];
      ParseFrame(last, rest);
      ParseFrames(front, Frame(last) + rest);
      assert Frames(parts) + rest == Frames(front) + (Frame(last) + rest);
      assert front + ([last] + Parse(rest).value) == parts + Parse(rest).value;
    }
  }

  /** The decoder recovers exactly the fields and the file hash, whatever the fields are called. */
  lemma DecodePreImage(fields: seq<Part>, fileHash: Bytes)
    requires (forall i :: 0 <= i < |fields| ==> Short(fields[i])) && |fileHash| < LENGTH_LIMIT
    ensures Decode(PreImage(fields, fileHash)) == Some((fields, fileHash))
  {
    var file := Part(FILE_SHA256, fileHash);
    assert Frame(file) + [] == Frame(file);
    ParseFrame(file, []);
    ParseFrames(fields, Frame(file));
    assert (fields + [file])[..|fields|] == fields;
  }

  /** Two requests are hashed over the same bytes only if all their fields and their files agree. */
  lemma PreImageInjective(a: seq<Part>, fileA: Bytes, b: seq<Part>, fileB: Bytes)
    requires (forall i :: 0 <= i < |a| ==> Short(a[i])) && |fileA| < LENGTH_LIMIT
    requires (forall i :: 0 <= i < |b| ==> Short(b[i])) && |fileB| < LENGTH_LIMIT
    ensures PreImage(a, fileA) == PreImage(b, fileB) <==> a == b && fileA == fileB
  {
    DecodePreImage(a, fileA);
    DecodePreImage(b, fileB);
  }

  // ----------------------------------------------------------------------------------- writing

  /** The running hash: the bytes written to it so far. */
  class HashWriter {
    var written: Bytes

    constructor ()
      ensures written == []
    {
      written := [];
    }

    method Write(b: Bytes)
      modifies this
      ensures written == old(written) + b
    {
      written := written + b;
    }
  }

  /** Stores a number in a buffer, the last byte first. */
  method PutUint64(buffer: array<Byte>, n: nat)
    requires buffer.Length == 8
    modifies buffer
    ensures buffer[..] == BigEndian(n, 8)
    ensures n < LENGTH_LIMIT ==>
              n == 0x1_0000_0000 * Word(buffer[0], buffer[1], buffer[2], buffer[3])
                   + Word(buffer[4], buffer[5], buffer[6], buffer[7])
  {
    var i, rest := 8, n;
    while i > 0
      invariant 0 <= i <= 8
      invariant BigEndian(rest, i) + buffer[i..] == BigEndian(n, 8)
    {
      i := i - 1;
      ghost var after := buffer[i + 1..];
      buffer[i] := rest % 256;
      assert buffer[i..] == [rest % 256] + after;
      assert BigEndian(rest, i + 1) + after == BigEndian(rest / 256, i) + buffer[i..];
      rest := rest / 256;
    }
    assert buffer[..] == buffer[0..];
    if n < LENGTH_LIMIT {
      EightBytes();
      NumberOfBigEndian(n, 8);
      EightDigits(buffer[..]);
    }
  }

  method WriteHashPart(writer: HashWriter, name: Bytes, value: Bytes)
    modifies writer
    ensures writer.written == old(writer.written) + Frame(Part(name, value))
    ensures writer.written
            == old(writer.written) + (BigEndian(|name|, 8) + name + (BigEndian(|value|, 8) + value))
  {
    hide BigEndian;
    var size := new Byte[8];
    PutUint64(size, |name|);
    writer.Write(size[..]);
    writer.Write(name);
    PutUint64(size, |value|);
    writer.Write(size[..]);
    writer.Write(value);
    assert writer.written == old(writer.written) + (BigEndian(|name|, 8) + name + (BigEndian(|value|, 8) + value));
  }

  predicate HexDigest(b: Bytes) {
    |b| == 64 && forall i :: 0 <= i < |b| ==> 48 <= b[i] <= 57 || 97 <= b[i] <= 102
  }

  /** The bytes hashed for a request, or nothing for a file hash or a field name that is not valid. */
  method HashCanonicalMultipart(fields: seq<Part>, fileHash: Bytes) returns (hashed: Option<Bytes>)
    ensures hashed == if HexDigest(fileHash) && (forall i :: 0 <= i < |fields| ==> fields[i].name != [])
                      then Some(PreImage(fields, fileHash)) else None
  {
    hide Frame, HexDigest;
    if !HexDigest(fileHash) {
      return None;
    }
    var writer := new HashWriter();
    for i := 0 to |fields|
      invariant fresh(writer) && writer.written == Frames(fields[..i])
      invariant forall j :: 0 <= j < i ==> fields[j].name != []
    {
      if fields[i].name == [] {
        return None;
      }
      WriteHashPart(writer, fields[i].name, fields[i].value);
      assert fields[..i + 1][..i] == fields[..i];
    }
    assert fields[..|fields|] == fields;
    WriteHashPart(writer, FILE_SHA256, fileHash);
    return Some(writer.written);
  }
}
