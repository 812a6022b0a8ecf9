/**
 The strict reader of one-member ustar archives (ustar Interchange Format under the pax
 utility, IEEE Std 1003.1): what it accepts, and that it does so whatever the read chunks are.
 */
module Ustar {
  import opened Common

  const MAX_DECOMPRESSED: nat := 512 * 1024 * 1024
  const MAX_TOTAL: nat := MAX_DECOMPRESSED + 1024 * 1024
  const BLOCK: nat := 512

  // ---------- Header fields ----------

  function Sum(b: seq<byte>): nat { if b == [] then 0 else b[0] + Sum(b[1..]) }

  predicate IsPadding(b: byte) { b == 0 || b == 32 }

  function StripLeft(b: seq<byte>): seq<byte> { if b != [] && IsPadding(b[0]) then StripLeft(b[1..]) else b }

  function StripRight(b: seq<byte>): seq<byte> {
    if b != [] && IsPadding(b[|b| - 1]) then StripRight(b[..|b| - 1]) else b
  }

  predicate OctalDigits(b: seq<byte>) { forall i :: 0 <= i < |b| ==> 48 <= b[i] <= 55 }

  function OctalValue(b: seq<byte>): nat
    requires OctalDigits(b)
  {
    if b == [] then 0 else OctalValue(b[..|b| - 1]) * 8 + (b[|b| - 1] - 48)
  }

  /** `_tar_octal`; `None` when it raises. */
  function TarOctal(field: seq<byte>): Option<nat> {
    var value := StripRight(StripLeft(field));
    if value == [] || !OctalDigits(value) then None else Some(OctalValue(value))
  }

  predicate AllZero(b: seq<byte>) { forall i :: 0 <= i < |b| ==> b[i] == 0 }

  function UntilZero(b: seq<byte>): seq<byte> {
    if b == [] || b[0] == 0 then [] else [b[0]] + UntilZero(b[1..])
  }

  predicate Ascii(b: seq<byte>) { forall i :: 0 <= i < |b| ==> b[i] < 128 }

  const MAGIC: seq<byte> := [117, 115, 116, 97, 114, 0, 48, 48]
  const OLD_MAGIC: seq<byte> := [117, 115, 116, 97, 114, 32, 32, 0]

  function Checksum(header: seq<byte>): nat
    requires |header| == BLOCK
  {
    Sum(header[..148]) + 8 * 32 + Sum(header[156..])
  }

  /** `_strict_ustar_member`: the member size, or `None` when it raises. */
  function StrictMember(header: seq<byte>, name: seq<byte>): Option<nat> {
    if |header| != BLOCK || AllZero(header) then None
    else if TarOctal(header[148..156]) != Some(Checksum(header)) then None
    else if header[257..265] != MAGIC && header[257..265] != OLD_MAGIC then None
    else if header[156] != 48 || !AllZero(header[157..257]) then None
    else if !AllZero(header[345..500]) then None
    else if !Ascii(UntilZero(header[..100])) || UntilZero(header[..100]) != name then None
    else
      var size := TarOctal(header[124..136]);
      if size.None? || size.value == 0 || size.value > MAX_DECOMPRESSED then None else size
  }

  /** `_validate_elf_header` on the first bytes of the member. */
  predicate ElfOk(prefix: seq<byte>, machine: nat) {
    && |prefix| >= 20
    && prefix[..4] == [127, 69, 76, 70]
    && prefix[4] == 2 && prefix[5] == 1 && prefix[6] == 1
    && prefix[18] as int + 256 * prefix[19] as int == machine
  }

  function PaddingSize(size: nat): (n: nat)
    ensures n < BLOCK && (size + n) % BLOCK == 0
  {
    var negated: int := 0 - size;
    negated % BLOCK
  }

  // ---------- What an acceptable stream is ----------

  /** The size announced by a stream with a valid header. */
  function Announced(data: seq<byte>, name: seq<byte>): Option<nat> {
    if |data| < BLOCK then None else StrictMember(data[..BLOCK], name)
  }

  /** A valid header, that many bytes with the right ELF prefix, zero padding to a block, then
      nothing but zeros, at least 1024 of them, all within the byte bound. */
  predicate Acceptable(data: seq<byte>, name: seq<byte>, machine: nat) {
    var size := Announced(data, name);
    && size.Some?
    && |data| >= BLOCK + size.value + PaddingSize(size.value) + 1024
    && |data| <= MAX_TOTAL
    && ElfOk(Take(data[BLOCK..BLOCK + size.value], 20), machine)
    && AllZero(data[BLOCK + size.value..])
  }

  function Body(data: seq<byte>, name: seq<byte>): seq<byte>
    requires Announced(data, name).Some? && |data| >= BLOCK + Announced(data, name).value
  {
    data[BLOCK..BLOCK + Announced(data, name).value]
  }

  // ---------- The reader ----------

  /** The decompressor's output; a read returns any non-empty part of what is asked for. */
  class ByteSource {
    const data: seq<byte>
    var pos: nat

    ghost predicate Valid()
      reads this
    {
      pos <= |data|
    }

    constructor (data: seq<byte>)
      ensures Valid() && pos == 0 && this.data == data
    {
      this.data := data;
      pos := 0;
    }

    method Read(size: nat) returns (chunk: seq<byte>)
      requires Valid()
      modifies this
      ensures Valid() && pos == old(pos) + |chunk| && chunk == data[old(pos)..pos]
      ensures |chunk| <= size
      ensures chunk == [] <==> size == 0 || old(pos) == |data|
    {
      var most := Min(size, |data| - pos);
      var n: int :| 0 <= n <= most && (n == 0 <==> most == 0);
      chunk := data[pos..pos + n];
      pos := pos + n;
    }
  }

  /** `_BoundedReader`. */
  class BoundedReader {
    const source: ByteSource
    const maximum: nat
    var size: nat

    ghost predicate Valid()
      reads this, source
    {
      source.Valid() && size == source.pos && size <= maximum
    }

    constructor (source: ByteSource, maximum: nat)
      requires source.Valid() && source.pos == 0
      ensures Valid() && this.source == source && this.maximum == maximum && size == 0
    {
      this.source, this.maximum, size := source, maximum, 0;
    }

    /** Fails only when the stream is longer than the bound. */
    method Read(want: int) returns (r: Result<seq<byte>>)
      requires Valid()
      modifies this, source
      ensures r.Err? ==> |source.data| > maximum
      ensures r.Ok? ==> Valid() && size == old(size) + |r.value| && r.value == source.data[old(size)..size]
      ensures r.Ok? && want >= 0 ==> |r.value| <= want
      ensures r.Ok? ==> (r.value == [] <==> want == 0 || old(size) == |source.data|)
    {
      var remaining := maximum - size;
      var requested := if want < 0 then remaining + 1 else Min(want, remaining + 1);
      var chunk := source.Read(requested);
      size := size + |chunk|;
      if size > maximum {
        return Err("archive decompressed data exceeds the allowed bound");
      }
      return Ok(chunk);
    }
  }

  /** `_read_exact`. */
  method ReadExact(reader: BoundedReader, want: nat) returns (r: Result<seq<byte>>)
    requires reader.Valid()
    modifies reader, reader.source
    ensures r.Ok? ==> reader.Valid() && reader.size == old(reader.size) + want
                      && r.value == reader.source.data[old(reader.size)..reader.size]
    ensures r.Err? ==> |reader.source.data| > reader.maximum || |reader.source.data| < old(reader.size) + want
  {
    ghost var start := reader.size;
    var chunks: seq<byte> := [];
    var remaining := want;
    while remaining != 0
      invariant reader.Valid() && reader.size == start + want - remaining
      invariant 0 <= remaining <= want
      invariant chunks == reader.source.data[start..reader.size]
      decreases remaining
    {
      var chunk := reader.Read(remaining);
      if chunk.Err? { return chunk; }
      if chunk.value == [] { return Err("archive is incomplete"); }
      chunks := chunks + chunk.value;
      remaining := remaining - |chunk.value|;
    }
    return Ok(chunks);
  }

  /** The destination path: absent, or a file with some content. */
  class Destination {
    var content: Option<seq<byte>>

    constructor (content: Option<seq<byte>>)
      ensures this.content == content
    {
      this.content := content;
    }

    /** Exclusive creation: fails when the file is there already. */
    method Create() returns (ok: bool)
      modifies this
      ensures ok == old(content).None? && content == if ok then Some([]) else old(content)
    {
      ok := content.None?;
      if ok { content := Some([]); }
    }

    method Write(chunk: seq<byte>)
      requires content.Some?
      modifies this
      ensures content == Some(old(content).value + chunk)
    {
      content := Some(content.value + chunk);
    }

    method Unlink()
      modifies this
      ensures content == None
    {
      content := None;
    }
  }

  /** The body loop of `_archive_details`: everything is written, the first bytes are kept. */
  method ReadBody(reader: BoundedReader, size: nat, output: Destination) returns (r: Result<nat>, prefix: seq<byte>)
    requires reader.Valid() && output.content == Some([])
    modifies reader, reader.source, output
    ensures r.Ok? ==> reader.Valid() && reader.size == old(reader.size) + size && r.value == size
    ensures r.Ok? ==> var body := reader.source.data[old(reader.size)..old(reader.size) + size];
                      output.content == Some(body) && prefix == Take(body, 20)
    ensures r.Err? ==> |reader.source.data| > reader.maximum || |reader.source.data| < old(reader.size) + size
  {
    ghost var start := reader.size;
    prefix := [];
    var remaining, extracted := size, 0;
    while remaining != 0
      invariant reader.Valid() && reader.size == start + size - remaining
      invariant 0 <= remaining <= size && extracted == size - remaining
      invariant output.content.Some? && output.content.value == reader.source.data[start..reader.size]
      invariant prefix == Take(reader.source.data[start..reader.size], 20)
      decreases remaining
    {
      var chunk := reader.Read(Min(1024 * 1024, remaining));
      if chunk.Err? { return Err(chunk.error), prefix; }
      if chunk.value == [] { return Err("archive binary size changed while reading"), prefix; }
      ghost var got := output.content.value;
      TakeAppend(got, chunk.value, 20);
      assert got + chunk.value == reader.source.data[start..reader.size];
      hide Take;
      remaining := remaining - |chunk.value|;
      extracted := extracted + |chunk.value|;
      if |prefix| < 20 {
        prefix := prefix + Take(chunk.value, 20 - |prefix|);
      }
      output.Write(chunk.value);
    }
    return Ok(extracted), prefix;
  }

  /** The trailer loop: zeros to the end of the stream. */
  method ReadTrailer(reader: BoundedReader) returns (r: Result<nat>)
    requires reader.Valid()
    modifies reader, reader.source
    ensures r.Ok? <==> |reader.source.data| <= reader.maximum && AllZero(reader.source.data[old(reader.size)..])
    ensures r.Ok? ==> r.value == |reader.source.data| - old(reader.size)
  {
    ghost var start := reader.size;
    var total := 0;
    while true
      invariant reader.Valid() && reader.size == start + total
      invariant AllZero(reader.source.data[start..reader.size])
      decreases |reader.source.data| - reader.size
    {
      ghost var before := reader.size;
      var chunk := reader.Read(1024 * 1024);
      if chunk.Err? { return Err("bound"); }
      if chunk.value == [] {
        assert reader.source.data[start..reader.size] == reader.source.data[start..];
        return Ok(total);
      }
      total := total + |chunk.value|;
      if !AllZero(chunk.value) {
        var i :| 0 <= i < |chunk.value| && chunk.value[i] != 0;
        assert reader.source.data[start..][before - start + i] == chunk.value[i];
        return Err("unexpected trailing data");
      }
      assert reader.source.data[start..reader.size] == reader.source.data[start..before] + chunk.value;
    }
  }

  /** Padding and trailer, from the end of the body to the end of the stream. */
  method ReadRest(reader: BoundedReader, size: nat) returns (r: Result<nat>)
    requires reader.Valid()
    modifies reader, reader.source
    ensures var data := reader.source.data;
            r.Ok? <==> && |data| <= reader.maximum
                       && |data| >= old(reader.size) + PaddingSize(size) + 1024
                       && AllZero(data[old(reader.size)..])
  {
    hide PaddingSize;
    ghost var end, data := reader.size, reader.source.data;
    var padding := ReadExact(reader, PaddingSize(size));
    if padding.Err? { return Err(padding.error); }
    if !AllZero(padding.value) {
      var i :| 0 <= i < |padding.value| && padding.value[i] != 0;
      assert data[end..][i] == padding.value[i];
      return Err("archive USTAR padding must be zero-filled");
    }
    ghost var mid := reader.size;
    assert data[end..] == data[end..mid] + data[mid..];
    ZeroParts(data[end..mid], data[mid..]);
    var trailer := ReadTrailer(reader);
    if trailer.Err? { return trailer; }
    if trailer.value < 1024 { return Err("archive USTAR trailer is incomplete"); }
    return trailer;
  }

  lemma ZeroParts(a: seq<byte>, b: seq<byte>)
    ensures AllZero(a + b) <==> AllZero(a) && AllZero(b)
  {
    if AllZero(a + b) {
      forall i | 0 <= i < |a| ensures a[i] == 0 { assert (a + b)[i] == 0; }
      forall i | 0 <= i < |b| ensures b[i] == 0 { assert (a + b)[|a| + i] == 0; }
    }
  }

  /** The guarded part of `_archive_details`; `created` says whether the file is this call's. */
  method Extract(source: ByteSource, name: seq<byte>, machine: nat, destination: Destination)
    returns (r: Result<nat>, created: bool)
    requires source.Valid() && source.pos == 0
    modifies source, destination
    ensures r.Ok? <==> Acceptable(source.data, name, machine) && old(destination.content).None?
    ensures r.Ok? ==> var body := Body(source.data, name); destination.content == Some(body) && r.value == |body|
    ensures if created then old(destination.content).None? else destination.content == old(destination.content)
    ensures r.Ok? ==> created
  {
    hide PaddingSize, StrictMember, ElfOk, AllZero;
    created := false;
    var reader := new BoundedReader(source, MAX_TOTAL);
    var header := ReadExact(reader, BLOCK);
    if header.Err? { return Err(header.error), created; }
    assert header.value == source.data[..BLOCK];
    var size := StrictMember(header.value, name);
    if size.None? { return Err("header"), created; }
    created := destination.Create();
    if !created { return Err("invalid gzip tar archive"), created; }
    var extracted, prefix := ReadBody(reader, size.value, destination);
    if extracted.Err? { return extracted, created; }
    if !ElfOk(prefix, machine) { return Err("archive binary is not the expected ELF64"), created; }
    var rest := ReadRest(reader, size.value);
    if rest.Err? { return Err(rest.error), created; }
    return extracted, created;
  }

  /** `_archive_details` on a decompressed stream: it succeeds exactly on acceptable streams with no
      file in the way, with exactly the body as its output, however the reads are split; a failure
      leaves the destination as it was. */
  method ArchiveDetails(source: ByteSource, name: seq<byte>, machine: nat, destination: Destination)
    returns (r: Result<nat>)
    requires source.Valid() && source.pos == 0
    modifies source, destination
    ensures r.Ok? <==> Acceptable(source.data, name, machine) && old(destination.content).None?
    ensures r.Ok? ==> var body := Body(source.data, name); destination.content == Some(body) && r.value == |body|
    ensures r.Err? ==> destination.content == old(destination.content)
  {
    hide Acceptable, Body;
    var created;
    r, created := Extract(source, name, machine, destination);
    if r.Err? && created { destination.Unlink(); }
  }

  // ---------- A single-member writer ----------

  function Zeros(n: nat): (r: seq<byte>)
    ensures |r| == n && AllZero(r)
  {
    seq(n, _ => 0)
  }

  function Octal(n: nat, digits: nat): (r: seq<byte>)
    ensures |r| == digits && OctalDigits(r)
    decreases digits
  {
    if digits == 0 then [] else Octal(n / 8, digits - 1) + [48 + n % 8]
  }

  function Pow8(k: nat): nat { if k == 0 then 1 else 8 * Pow8(k - 1) }

  /** Mode 0755, then zero owner and group. */
  const IDS: seq<byte> :=
    [48, 48, 48, 48, 55, 53, 53, 0] + [48, 48, 48, 48, 48, 48, 48, 0] + [48, 48, 48, 48, 48, 48, 48, 0]

  function BeforeChecksum(name: seq<byte>, size: nat): (r: seq<byte>)
    requires |name| <= 100
    ensures |r| == 148
  {
    name + Zeros(100 - |name|) + IDS + (Octal(size, 11) + [0]) + (Octal(0, 11) + [0])
  }

  function AfterChecksum(): (r: seq<byte>)
    ensures |r| == 356
  {
    [48] + Zeros(100) + MAGIC + Zeros(80) + Zeros(155) + Zeros(12)
  }

  function ChecksumField(name: seq<byte>, size: nat): (r: seq<byte>)
    requires |name| <= 100
    ensures |r| == 8
  {
    Octal(Sum(BeforeChecksum(name, size)) + 256 + Sum(AfterChecksum()), 6) + [0, 32]
  }

  function HeaderFor(name: seq<byte>, size: nat): (r: seq<byte>)
    requires |name| <= 100
    ensures |r| == BLOCK
  {
    BeforeChecksum(name, size) + ChecksumField(name, size) + AfterChecksum()
  }

  function Write(name: seq<byte>, body: seq<byte>): seq<byte>
    requires |name| <= 100
  {
    HeaderFor(name, |body|) + body + Zeros(PaddingSize(|body|)) + Zeros(1024)
  }

  lemma {:induction false} SumBound(b: seq<byte>)
    ensures Sum(b) <= 255 * |b|
    decreases |b|
  {
    if b != [] { SumBound(b[1..]); }
  }

  lemma {:induction false} OctalRoundTrip(n: nat, digits: nat)
    requires n < Pow8(digits)
    ensures OctalValue(Octal(n, digits)) == n
    decreases digits
  {
    if digits > 0 {
      assert Pow8(digits) == 8 * Pow8(digits - 1);
      OctalRoundTrip(n / 8, digits - 1);
      var r := Octal(n, digits);
      assert r[..|r| - 1] == Octal(n / 8, digits - 1);
    }
  }

  lemma {:induction false} StripRightKeepsDigits(digits: seq<byte>, padding: seq<byte>)
    requires digits != [] && OctalDigits(digits) && forall i :: 0 <= i < |padding| ==> IsPadding(padding[i])
    ensures StripRight(digits + padding) == digits
    decreases |padding|
  {
    var all := digits + padding;
    if padding == [] {
      assert all == digits;
    } else {
      assert all[..|all| - 1] == digits + padding[..|padding| - 1];
      StripRightKeepsDigits(digits, padding[..|padding| - 1]);
    }
  }

  lemma FieldRoundTrip(n: nat, digits: nat, padding: seq<byte>)
    requires 1 <= digits && n < Pow8(digits) && forall i :: 0 <= i < |padding| ==> IsPadding(padding[i])
    ensures TarOctal(Octal(n, digits) + padding) == Some(n)
  {
    var d := Octal(n, digits);
    assert !IsPadding((d + padding)[0]);
    StripRightKeepsDigits(d, padding);
    OctalRoundTrip(n, digits);
  }

  /** The checksum of any header fits the six octal digits of its field. */
  lemma ChecksumFits(header: seq<byte>)
    requires |header| == BLOCK
    ensures Checksum(header) < Pow8(6)
  {
    SumBound(header[..148]);
    SumBound(header[156..]);
    assert Pow8(3) == 512;
  }

  lemma {:induction false} UntilZeroIs(name: seq<byte>, n: nat)
    requires forall i :: 0 <= i < |name| ==> name[i] != 0
    ensures UntilZero(name + Zeros(n)) == name
    decreases |name|
  {
    if name == [] {
      assert name + Zeros(n) == Zeros(n);
    } else {
      assert (name + Zeros(n))[1..] == name[1..] + Zeros(n);
      UntilZeroIs(name[1..], n);
    }
  }

  lemma HeaderParts(name: seq<byte>, size: nat)
    requires |name| <= 100
    ensures var h := HeaderFor(name, size);
            && h[..148] == BeforeChecksum(name, size) && h[148..156] == ChecksumField(name, size)
            && h[156..] == AfterChecksum()
            && h[..100] == name + Zeros(100 - |name|) && h[124..136] == Octal(size, 11) + [0]
  {
    hide Octal, ChecksumField, AfterChecksum, Zeros;
    var h, b := HeaderFor(name, size), BeforeChecksum(name, size);
    assert h[..148] == b;
    assert h[..100] == b[..100] && h[124..136] == b[124..136];
    assert b[..100] == name + Zeros(100 - |name|);
    assert b[124..136] == Octal(size, 11) + [0];
  }

  lemma AfterParts()
    ensures var a := AfterChecksum();
            a[0] == 48 && AllZero(a[1..101]) && a[101..109] == MAGIC && AllZero(a[189..344])
  {
    hide Zeros;
    var a := AfterChecksum();
    assert a[1..101] == Zeros(100);
    assert a[189..344] == Zeros(155);
  }

  lemma ChecksumIsItsField(name: seq<byte>, size: nat)
    requires |name| <= 100
    ensures var h := HeaderFor(name, size); h[148..156] == Octal(Checksum(h), 6) + [0, 32]
  {
    hide HeaderFor, BeforeChecksum, AfterChecksum, Octal, Sum;
    HeaderParts(name, size);
  }

  lemma SizeFits(size: nat)
    requires size <= MAX_DECOMPRESSED
    ensures size < Pow8(11)
  {
    assert Pow8(4) == 4096;
    assert Pow8(8) == 16777216;
    assert Pow8(11) == 8589934592;
  }

  lemma NumbersRead(name: seq<byte>, size: nat)
    requires |name| <= 100 && size <= MAX_DECOMPRESSED
    ensures var h := HeaderFor(name, size);
            TarOctal(h[148..156]) == Some(Checksum(h)) && TarOctal(h[124..136]) == Some(size)
  {
    hide HeaderFor, BeforeChecksum, AfterChecksum, TarOctal, Octal, Pow8, ChecksumField, Checksum;
    var h := HeaderFor(name, size);
    HeaderParts(name, size);
    ChecksumIsItsField(name, size);
    ChecksumFits(h);
    SizeFits(size);
    FieldRoundTrip(Checksum(h), 6, [0, 32]);
    FieldRoundTrip(size, 11, [0]);
  }

  lemma TypeReads(name: seq<byte>, size: nat)
    requires |name| <= 100
    ensures var h := HeaderFor(name, size);
            && h[156] == 48 && AllZero(h[157..257]) && h[257..265] == MAGIC && AllZero(h[345..500])
  {
    hide HeaderFor, BeforeChecksum, AfterChecksum, AllZero, Zeros, Octal, ChecksumField;
    HeaderParts(name, size);
    AfterParts();
    var h := HeaderFor(name, size);
    assert h[156] == h[156..][0] && h[157..257] == h[156..][1..101];
    assert h[257..265] == h[156..][101..109] && h[345..500] == h[156..][189..344];
  }

  /** The reader gets back the size the writer put in. */
  lemma HeaderRoundTrip(name: seq<byte>, size: nat)
    requires 1 <= |name| <= 100 && (forall i :: 0 <= i < |name| ==> 0 < name[i] < 128) && 1 <= size <= MAX_DECOMPRESSED
    ensures StrictMember(HeaderFor(name, size), name) == Some(size)
  {
    var h := HeaderFor(name, size);
    NumbersRead(name, size);
    TypeReads(name, size);
    assert UntilZero(h[..100]) == name by {
      HeaderParts(name, size);
      UntilZeroIs(name, 100 - |name|);
    }
    hide HeaderFor, TarOctal, Sum, UntilZero, Checksum;
    assert !AllZero(h);
    hide AllZero;
  }

  lemma WriteParts(name: seq<byte>, body: seq<byte>)
    requires |name| <= 100
    ensures var data := Write(name, body);
            var n := BLOCK + |body|;
            && |data| == n + PaddingSize(|body|) + 1024
            && data[..BLOCK] == HeaderFor(name, |body|) && data[BLOCK..n] == body && AllZero(data[n..])
  {
    hide HeaderFor, PaddingSize;
    var data := Write(name, body);
    assert data[BLOCK + |body|..] == Zeros(PaddingSize(|body|)) + Zeros(1024);
    ZeroParts(Zeros(PaddingSize(|body|)), Zeros(1024));
  }

  /** What the writer writes, the reader accepts, and the body comes back. */
  lemma WriteIsAcceptable(name: seq<byte>, body: seq<byte>, machine: nat)
    requires 1 <= |name| <= 100 && (forall i :: 0 <= i < |name| ==> 0 < name[i] < 128)
    requires 1 <= |body| <= MAX_DECOMPRESSED && ElfOk(Take(body, 20), machine)
    ensures Acceptable(Write(name, body), name, machine) && Body(Write(name, body), name) == body
  {
    hide HeaderFor, StrictMember, ElfOk, PaddingSize, Write, AllZero;
    HeaderRoundTrip(name, |body|);
    WriteParts(name, body);
  }
}
