/**
 What the strict archive reader refuses, told by the bytes alone.
 */
module UstarRefusals {
  import opened Common
  import opened Ustar

  // ---------- One changed byte ----------

  lemma {:induction false} SumReplaced(b: seq<byte>, i: nat, v: byte)
    requires i < |b|
    ensures Sum(b[i := v]) + b[i] == Sum(b) + v
    decreases |b|
  {
    if i == 0 {
      assert b[i := v][1..] == b[1..];
    } else {
      assert b[i := v][1..] == b[1..][i - 1 := v];
      SumReplaced(b[1..], i - 1, v);
    }
  }

  lemma ChecksumMoves(h: seq<byte>, i: nat, v: byte)
    requires |h| == BLOCK && i < BLOCK && (i < 148 || 156 <= i)
    ensures Checksum(h[i := v]) + h[i] == Checksum(h) + v && h[i := v][148..156] == h[148..156]
  {
    var g := h[i := v];
    hide Sum;
    if i < 148 {
      assert g[..148] == h[..148][i := v] && g[156..] == h[156..];
      SumReplaced(h[..148], i, v);
    } else {
      assert g[..148] == h[..148] && g[156..] == h[156..][i - 156 := v];
      SumReplaced(h[156..], i - 156, v);
    }
  }

  /** An accepted header with any one byte outside its checksum field changed is refused. */
  lemma OneChangedByteIsRefused(h: seq<byte>, name: seq<byte>, i: nat, v: byte)
    requires StrictMember(h, name).Some? && i < |h| && (i < 148 || 156 <= i) && v != h[i]
    ensures StrictMember(h[i := v], name).None?
  {
    ChecksumMoves(h, i, v);
    hide Checksum, TarOctal, AllZero, UntilZero;
  }

  /** So is one whose checksum field says something else. */
  lemma OtherChecksumIsRefused(h: seq<byte>, g: seq<byte>, name: seq<byte>)
    requires StrictMember(h, name).Some? && |g| == BLOCK && g[..148] == h[..148] && g[156..] == h[156..]
    requires TarOctal(g[148..156]) != TarOctal(h[148..156])
    ensures StrictMember(g, name).None?
  {
    hide TarOctal, AllZero, UntilZero, Sum;
  }

  // ---------- Fields that do not fit, whatever the checksum ----------

  /** Another length, another type, a link name, a path prefix or a foreign magic. */
  lemma OtherFormsAreRefused(h: seq<byte>, name: seq<byte>)
    ensures |h| != 512 ==> StrictMember(h, name).None?
    ensures |h| == 512 && (forall i :: 0 <= i < 512 ==> h[i] == 0) ==> StrictMember(h, name).None?
    ensures |h| == 512 && h[156] != '0' as int ==> StrictMember(h, name).None?
    ensures |h| == 512 && (exists i :: 157 <= i < 257 && h[i] != 0) ==> StrictMember(h, name).None?
    ensures |h| == 512 && (exists i :: 345 <= i < 500 && h[i] != 0) ==> StrictMember(h, name).None?
    ensures |h| == 512 && h[257..262] != [117, 115, 116, 97, 114] ==> StrictMember(h, name).None?
    ensures |h| == 512 && h[262..265] != [0, 48, 48] && h[262..265] != [32, 32, 0] ==> StrictMember(h, name).None?
  {
    hide TarOctal, UntilZero, Checksum;
    if |h| == 512 && StrictMember(h, name).Some? {
      forall i | 157 <= i < 257 ensures h[i] == 0 { assert h[157..257][i - 157] == 0; }
      forall i | 345 <= i < 500 ensures h[i] == 0 { assert h[345..500][i - 345] == 0; }
      assert h[257..265][..5] == h[257..262] && h[257..265][5..] == h[262..265];
      assert MAGIC[..5] == OLD_MAGIC[..5] == [117, 115, 116, 97, 114];
      assert MAGIC[5..] == [0, 48, 48] && OLD_MAGIC[5..] == [32, 32, 0];
    }
  }

  lemma {:induction false} UntilZeroReads(b: seq<byte>)
    ensures var r := UntilZero(b);
            && |r| <= |b| && r == b[..|r|] && (|r| < |b| ==> b[|r|] == 0)
            && forall i :: 0 <= i < |r| ==> r[i] != 0
    decreases |b|
  {
    if b != [] && b[0] != 0 { UntilZeroReads(b[1..]); }
  }

  /** The name field must spell the expected name and then end. */
  lemma OtherNamesAreRefused(h: seq<byte>, name: seq<byte>)
    requires |h| == 512
    ensures |name| > 100 ==> StrictMember(h, name).None?
    ensures |name| <= 100 && h[..|name|] != name ==> StrictMember(h, name).None?
    ensures |name| < 100 && h[|name|] != 0 ==> StrictMember(h, name).None?
    ensures (exists i :: 0 <= i < |name| && (name[i] == 0 || name[i] >= 128)) ==> StrictMember(h, name).None?
  {
    UntilZeroReads(h[..100]);
    hide TarOctal, AllZero, Checksum, UntilZero;
    if StrictMember(h, name).Some? {
      assert UntilZero(h[..100]) == name;
      assert h[..100][..|name|] == h[..|name|];
    }
  }

  // ---------- Octal fields ----------

  lemma {:induction false} StripLeftReads(b: seq<byte>)
    ensures var r := StripLeft(b);
            && |r| <= |b| && r == b[|b| - |r|..] && (r != [] ==> !IsPadding(r[0]))
            && forall i :: 0 <= i < |b| - |r| ==> IsPadding(b[i])
    decreases |b|
  {
    hide IsPadding;
    if b != [] && IsPadding(b[0]) {
      StripLeftReads(b[1..]);
      var n := |StripLeft(b)|;
      forall i | 0 <= i < |b| - n ensures IsPadding(b[i]) {
        if i > 0 { assert b[1..][i - 1] == b[i]; }
      }
    }
  }

  lemma {:induction false} StripRightReads(b: seq<byte>)
    ensures var r := StripRight(b);
            && |r| <= |b| && r == b[..|r|] && (r != [] ==> !IsPadding(r[|r| - 1]))
            && forall i :: |r| <= i < |b| ==> IsPadding(b[i])
    decreases |b|
  {
    hide IsPadding;
    if b != [] && IsPadding(b[|b| - 1]) { StripRightReads(b[..|b| - 1]); }
  }

  /** A field with anything but octal digits and padding, or padding between digits, or no digit at
      all, is refused. */
  lemma OtherFieldsAreRefused(field: seq<byte>)
    ensures (exists i :: 0 <= i < |field| && !IsPadding(field[i]) && !(48 <= field[i] <= 55)) ==> TarOctal(field).None?
    ensures (exists i, k, m :: 0 <= i < k < m < |field|
                               && !IsPadding(field[i]) && IsPadding(field[k]) && !IsPadding(field[m])) ==>
              TarOctal(field).None?
    ensures (forall i :: 0 <= i < |field| ==> IsPadding(field[i])) ==> TarOctal(field).None?
  {
    var left := StripLeft(field);
    var value := StripRight(left);
    StripLeftReads(field);
    StripRightReads(left);
    hide StripLeft, StripRight, OctalValue;
    var skip := |field| - |left|;
    if TarOctal(field).Some? {
      forall i | 0 <= i < |field| && !IsPadding(field[i])
        ensures skip <= i < skip + |value| && 48 <= field[i] <= 55
      {
        assert field[i] == left[i - skip];
        assert field[i] == value[i - skip];
      }
      forall k | skip <= k < skip + |value| ensures !IsPadding(field[k]) {
        assert field[k] == left[k - skip] == value[k - skip];
      }
      assert field[skip] == left[0] == value[0];
    }
  }

  lemma {:induction false} StripLeftSkips(lead: seq<byte>, rest: seq<byte>)
    requires (forall i :: 0 <= i < |lead| ==> IsPadding(lead[i])) && rest != [] && !IsPadding(rest[0])
    ensures StripLeft(lead + rest) == rest
    decreases |lead|
  {
    if lead == [] {
      assert lead + rest == rest;
    } else {
      assert (lead + rest)[1..] == lead[1..] + rest;
      StripLeftSkips(lead[1..], rest);
    }
  }

  /** A number written in octal reads back through any padding on either side. */
  lemma PaddedFieldReads(lead: seq<byte>, n: nat, digits: nat, padding: seq<byte>)
    requires 1 <= digits && n < Pow8(digits)
    requires forall i :: 0 <= i < |lead| ==> IsPadding(lead[i])
    requires forall i :: 0 <= i < |padding| ==> IsPadding(padding[i])
    ensures TarOctal(lead + (Octal(n, digits) + padding)) == Some(n)
  {
    var d := Octal(n, digits);
    assert !IsPadding((d + padding)[0]);
    StripLeftSkips(lead, d + padding);
    StripRightKeepsDigits(d, padding);
    OctalRoundTrip(n, digits);
  }

  /** A size of zero or beyond the limit is refused. */
  lemma OtherSizesAreRefused(h: seq<byte>, name: seq<byte>)
    requires |h| == 512
    ensures TarOctal(h[124..136]).None? ==> StrictMember(h, name).None?
    ensures TarOctal(h[124..136]) == Some(0) ==> StrictMember(h, name).None?
    ensures TarOctal(h[124..136]).Some? && TarOctal(h[124..136]).value > 536_870_912 ==> StrictMember(h, name).None?
    ensures StrictMember(h, name).Some? ==> StrictMember(h, name) == TarOctal(h[124..136])
  {
    hide TarOctal, AllZero, UntilZero, Checksum;
  }

  // ---------- The binary's prefix ----------

  /** A prefix is right for one machine only. */
  lemma OneMachine(prefix: seq<byte>, a: nat, b: nat)
    requires ElfOk(prefix, a) && ElfOk(prefix, b)
    ensures a == b
  {
  }

  /** Changing any of the bytes that are looked at, or cutting the prefix short, makes it wrong. */
  lemma OtherPrefixesAreRefused(prefix: seq<byte>, machine: nat, i: nat, v: byte)
    requires ElfOk(prefix, machine) && i < |prefix| && v != prefix[i] && (i < 7 || i == 18 || i == 19)
    ensures !ElfOk(prefix[i := v], machine)
    ensures forall n :: 0 <= n < 20 ==> !ElfOk(prefix[..n], machine)
  {
    var p := prefix[i := v];
    if i < 4 { assert p[..4][i] == v && prefix[..4][i] == prefix[i]; }
  }

  // ---------- The whole stream ----------

  /** Of an acceptable stream nothing behind the body may be other than zero. */
  lemma ChangedStreamIsRefused(data: seq<byte>, name: seq<byte>, machine: nat, i: nat, v: byte)
    requires Acceptable(data, name, machine) && v != 0
    requires BLOCK + Announced(data, name).value <= i < |data|
    ensures !Acceptable(data[i := v], name, machine)
  {
    hide StrictMember, PaddingSize, ElfOk;
    var end, d := BLOCK + Announced(data, name).value, data[i := v];
    assert d[..BLOCK] == data[..BLOCK];
    assert d[end..][i - end] == v;
  }

  /** It may not be cut short of its padding and 1024 bytes of trailer. */
  lemma ShortStreamIsRefused(data: seq<byte>, name: seq<byte>, machine: nat, n: nat)
    requires Acceptable(data, name, machine)
    requires n < BLOCK + Announced(data, name).value + PaddingSize(Announced(data, name).value) + 1024
    ensures !Acceptable(data[..n], name, machine)
  {
    hide StrictMember, PaddingSize, ElfOk;
    if n >= BLOCK { assert data[..n][..BLOCK] == data[..BLOCK]; }
  }

  /** And it may go on only with zeros, up to the bound. */
  lemma LongerStreamIsExact(data: seq<byte>, tail: seq<byte>, name: seq<byte>, machine: nat)
    requires Acceptable(data, name, machine)
    ensures Acceptable(data + tail, name, machine) <==> |data| + |tail| <= 537_919_488 && AllZero(tail)
  {
    hide StrictMember, PaddingSize, ElfOk;
    var end := BLOCK + Announced(data, name).value;
    var d := data + tail;
    assert d[..BLOCK] == data[..BLOCK];
    assert d[BLOCK..end] == data[BLOCK..end];
    assert d[end..] == data[end..] + tail;
    ZeroParts(data[end..], tail);
  }

  // ---------- And nothing else is refused ----------

  /** A header that fits in every respect is accepted, with the size it announces, under either magic. */
  lemma FittingHeaderIsAccepted(h: seq<byte>, name: seq<byte>, size: nat)
    requires |h| == 512 && |name| <= 100 && (forall i :: 0 <= i < |name| ==> 0 < name[i] < 128)
    requires TarOctal(h[148..156]) == Some(Checksum(h)) && TarOctal(h[124..136]) == Some(size)
    requires 1 <= size <= 536_870_912
    requires h[257..265] == [117, 115, 116, 97, 114, 0, 48, 48] || h[257..265] == [117, 115, 116, 97, 114, 32, 32, 0]
    requires h[156] == 48 && (forall i :: 157 <= i < 257 ==> h[i] == 0) && (forall i :: 345 <= i < 500 ==> h[i] == 0)
    requires h[..|name|] == name && (|name| < 100 ==> h[|name|] == 0)
    ensures StrictMember(h, name) == Some(size)
  {
    NameReads(h[..100], name);
    hide TarOctal, Checksum, UntilZero;
    assert !AllZero(h);
  }

  lemma {:induction false} NameReads(field: seq<byte>, name: seq<byte>)
    requires |name| <= |field| && field[..|name|] == name && (forall i :: 0 <= i < |name| ==> name[i] != 0)
    requires |name| < |field| ==> field[|name|] == 0
    ensures UntilZero(field) == name
    decreases |name|
  {
    if name != [] {
      assert field[0] == field[..|name|][0] == name[0];
      assert field[1..][..|name| - 1] == field[..|name|][1..] == name[1..];
      NameReads(field[1..], name[1..]);
    }
  }
}
