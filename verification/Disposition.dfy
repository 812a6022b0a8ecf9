/**
 The attachment header: the printer `attachment_disposition` and the checker
 `_safe_attachment_disposition`, with UTF-8 and percent-encoding written out
 (section 3.2 of RFC 8187, section 4 of RFC 6266).  A `string` here is a sequence of Unicode
 scalar values, that is, a UTF-8-encodable Python string.
 */
module Disposition {
  import opened Common

  // ---------- UTF-8 ----------

  function Utf8(c: char): (r: seq<byte>)
    ensures 1 <= |r| <= 4
  {
    var n := c as int;
    if n < 0x80 then [n]
    else if n < 0x800 then [0xC0 + n / 64, 0x80 + n % 64]
    else if n < 0x1_0000 then [0xE0 + n / 4096, 0x80 + n / 64 % 64, 0x80 + n % 64]
    else [0xF0 + n / 262144, 0x80 + n / 4096 % 64, 0x80 + n / 64 % 64, 0x80 + n % 64]
  }

  function Encode(s: string): (r: seq<byte>)
    ensures |r| >= |s|
  {
    if s == [] then [] else Utf8(s[0]) + Encode(s[1..])
  }

  predicate Continuation(b: byte) { 0x80 <= b < 0xC0 }

  predicate Scalar(n: int) { 0 <= n < 0xD800 || 0xE000 <= n < 0x11_0000 }

  /** The first scalar value of a strict UTF-8 text and how many bytes it takes. */
  function DecodeOne(b: seq<byte>): Option<(char, nat)>
    requires b != []
  {
    if b[0] < 0x80 then Some((b[0] as char, 1))
    else if 0xC0 <= b[0] < 0xE0 && |b| >= 2 && Continuation(b[1]) then
      var n: int := (b[0] as int - 0xC0) * 64 + (b[1] as int - 0x80);
      if n >= 0x80 then Some((n as char, 2)) else None
    else if 0xE0 <= b[0] < 0xF0 && |b| >= 3 && Continuation(b[1]) && Continuation(b[2]) then
      var n: int := (b[0] as int - 0xE0) * 4096 + (b[1] as int - 0x80) * 64 + (b[2] as int - 0x80);
      if n >= 0x800 && Scalar(n) then Some((n as char, 3)) else None
    else if 0xF0 <= b[0] < 0xF8 && |b| >= 4 && Continuation(b[1]) && Continuation(b[2]) && Continuation(b[3]) then
      var n: int :=
        (b[0] as int - 0xF0) * 262144 + (b[1] as int - 0x80) * 4096 + (b[2] as int - 0x80) * 64 + (b[3] as int - 0x80);
      if n >= 0x1_0000 && Scalar(n) then Some((n as char, 4)) else None
    else None
  }

  function Decode(b: seq<byte>): Option<string>
    decreases |b|
  {
    if b == [] then Some([])
    else
      var one := DecodeOne(b);
      if one.None? || one.value.1 > |b| then None
      else
        var rest := Decode(b[one.value.1..]);
        if rest.None? then None else Some([one.value.0] + rest.value)
  }

  lemma Split3(n: int)
    requires 0x800 <= n < 0x1_0000
    ensures n == n / 4096 * 4096 + n / 64 % 64 * 64 + n % 64 && 0 <= n / 4096 < 16
  {
  }

  lemma Split4(n: int)
    requires 0x1_0000 <= n < 0x11_0000
    ensures n == n / 262144 * 262144 + n / 4096 % 64 * 4096 + n / 64 % 64 * 64 + n % 64 && 0 <= n / 262144 < 8
  {
  }

  lemma LongCharRoundTrip(c: char, rest: seq<byte>)
    requires c as int >= 0x800
    ensures DecodeOne(Utf8(c) + rest) == Some((c, |Utf8(c)|))
  {
    var n := c as int;
    var b := Utf8(c) + rest;
    assert Scalar(n);
    if n >= 0x1_0000 {
      Split4(n);
      assert b[0] == 0xF0 + n / 262144 && b[1] == 0x80 + n / 4096 % 64 && b[2] == 0x80 + n / 64 % 64
          && b[3] == 0x80 + n % 64;
    } else {
      Split3(n);
      assert b[0] == 0xE0 + n / 4096 && b[1] == 0x80 + n / 64 % 64 && b[2] == 0x80 + n % 64;
    }
  }

  lemma CharRoundTrip(c: char, rest: seq<byte>)
    ensures DecodeOne(Utf8(c) + rest) == Some((c, |Utf8(c)|))
  {
    if c as int >= 0x800 { LongCharRoundTrip(c, rest); }
  }

  lemma {:induction false} Utf8RoundTrip(s: string)
    ensures Decode(Encode(s)) == Some(s)
    decreases |s|
  {
    if s != [] {
      CharRoundTrip(s[0], Encode(s[1..]));
      Utf8RoundTrip(s[1..]);
      hide DecodeOne, Utf8;
      assert (Utf8(s[0]) + Encode(s[1..]))[|Utf8(s[0])|..] == Encode(s[1..]);
      assert s == [s[0]] + s[1..];
    }
  }

  // ---------- Percent-encoding ----------

  predicate Alphanumeric(c: char) { 'A' <= c <= 'Z' || 'a' <= c <= 'z' || '0' <= c <= '9' }

  predicate Unreserved(c: char) { Alphanumeric(c) || c == '_' || c == '.' || c == '-' || c == '~' }

  function Hex(d: int): (c: char)
    requires 0 <= d < 16
    ensures Alphanumeric(c)
  {
    "0123456789ABCDEF"[d]
  }

  function HexValue(c: char): Option<int> {
    if '0' <= c <= '9' then Some(c as int - '0' as int)
    else if 'A' <= c <= 'F' then Some(c as int - 'A' as int + 10)
    else if 'a' <= c <= 'f' then Some(c as int - 'a' as int + 10)
    else None
  }

  function QuoteByte(b: byte): (r: string)
    ensures 1 <= |r| <= 3
  {
    if b < 128 && Unreserved(b as char) then [b as char] else ['%', Hex(b / 16), Hex(b % 16)]
  }

  function QuoteBytes(b: seq<byte>): (r: string)
    ensures |b| <= |r| <= 3 * |b|
  {
    if b == [] then [] else QuoteByte(b[0]) + QuoteBytes(b[1..])
  }

  /** `quote(s, safe="")`. */
  function Quote(s: string): string { QuoteBytes(Encode(s)) }

  /** `unquote_to_bytes`: a percent sign not followed by two hexadecimal digits stands for itself. */
  function Unquote(s: string): seq<byte>
    decreases |s|
  {
    if s == [] then []
    else if s[0] == '%' && |s| >= 3 && HexValue(s[1]).Some? && HexValue(s[2]).Some? then
      [HexValue(s[1]).value * 16 + HexValue(s[2]).value] + Unquote(s[3..])
    else Utf8(s[0]) + Unquote(s[1..])
  }

  lemma HexRoundTrip(d: int)
    requires 0 <= d < 16
    ensures HexValue(Hex(d)) == Some(d)
  {
  }

  lemma UnquoteByte(b: byte, rest: string)
    ensures Unquote(QuoteByte(b) + rest) == [b] + Unquote(rest)
  {
    var all := QuoteByte(b) + rest;
    if b < 128 && Unreserved(b as char) {
      assert all[0] == b as char && all[1..] == rest;
      assert Utf8(all[0]) == [b];
    } else {
      HexRoundTrip(b / 16);
      HexRoundTrip(b % 16);
      assert all[0] == '%' && all[1] == Hex(b / 16) && all[2] == Hex(b % 16) && all[3..] == rest;
    }
  }

  lemma {:induction false} QuoteRoundTrip(b: seq<byte>)
    ensures Unquote(QuoteBytes(b)) == b
    decreases |b|
  {
    if b != [] {
      QuoteRoundTrip(b[1..]);
      UnquoteByte(b[0], QuoteBytes(b[1..]));
      hide Unquote, QuoteByte;
      assert b == [b[0]] + b[1..];
    }
  }

  // ---------- The two header functions ----------

  predicate ContainsControl(s: string) { exists i :: 0 <= i < |s| && (s[i] < ' ' || s[i] == '\U{7f}') }

  predicate FallbackChar(c: char) { Alphanumeric(c) || c == '.' || c == '_' || c == '-' }

  predicate EncodedChar(c: char) { Alphanumeric(c) || c in "!#$&+.^_`|~%-" }

  const DEFAULT_HEADER := "attachment; filename=\"download\""
  const PREFIX := "attachment; filename=\""
  const MIDDLE := "\"; filename*=UTF-8''"

  function Header(fallback: string, encoded: string): string { PREFIX + fallback + MIDDLE + encoded }

  function Span(s: string): (n: nat)
    ensures n <= |s|
  {
    if s == [] || !FallbackChar(s[0]) then 0 else 1 + Span(s[1..])
  }

  /** The header pattern; its fallback part cannot contain the quote that ends it. */
  function Match(v: string): Option<(string, string)> {
    if !(PREFIX <= v) then None
    else
      var rest := v[|PREFIX|..];
      var n := Span(rest);
      var tail := rest[n..];
      if !(MIDDLE <= tail) then None
      else
        var encoded := tail[|MIDDLE|..];
        if 1 <= n <= 255 && 1 <= |encoded| <= 2048 && forall i :: 0 <= i < |encoded| ==> EncodedChar(encoded[i])
        then Some((rest[..n], encoded)) else None
  }

  /** A filename either function is willing to announce. */
  predicate NameOk(name: string) {
    name != [] && '/' !in name && '\\' !in name && !ContainsControl(name) && |Encode(name)| <= 255
  }

  predicate IsDots(s: string) { s == "." || s == ".." }

  function Checked(v: string): string {
    var m := Match(v);
    if ContainsControl(v) || m.None? then DEFAULT_HEADER
    else
      var (fallback, encoded) := m.value;
      if IsDots(fallback) || fallback[0] == '.' then DEFAULT_HEADER
      else
        var bytes := Unquote(encoded);
        var decoded := Decode(bytes);
        if decoded.None? then DEFAULT_HEADER
        else if decoded.value == [] || IsDots(decoded.value) || '/' in decoded.value || '\\' in decoded.value
                || ContainsControl(decoded.value) || |bytes| > 255 || Quote(decoded.value) != encoded
        then DEFAULT_HEADER
        else v
  }

  function Replaced(s: string): string {
    seq(|s|, i requires 0 <= i < |s| => if FallbackChar(s[i]) then s[i] else '_')
  }

  predicate Stripped(c: char) { c == '.' || c == '_' }

  function StripLeft(s: string): string {
    if s != [] && Stripped(s[0]) then StripLeft(s[1..]) else s
  }

  function StripRight(s: string): string {
    if s != [] && Stripped(s[|s| - 1]) then StripRight(s[..|s| - 1]) else s
  }

  function Fallback(name: string): string {
    var stripped := StripRight(StripLeft(Replaced(name)));
    if stripped == [] then "download" else stripped
  }

  function Printed(name: string): string {
    if !NameOk(name) then DEFAULT_HEADER else Header(Fallback(name), Quote(name))
  }

  // ---------- The printed fallback ----------

  ghost predicate AllFallback(s: string) { forall i :: 0 <= i < |s| ==> FallbackChar(s[i]) }

  lemma {:induction false} StripLeftFacts(s: string)
    requires AllFallback(s)
    ensures var r := StripLeft(s); AllFallback(r) && |r| <= |s| && (r != [] ==> !Stripped(r[0]))
    decreases |s|
  {
    hide FallbackChar, Stripped;
    if s != [] && Stripped(s[0]) { StripLeftFacts(s[1..]); }
  }

  lemma {:induction false} StripRightFacts(s: string)
    requires AllFallback(s)
    ensures var r := StripRight(s); AllFallback(r) && |r| <= |s| && (r != [] ==> r[0] == s[0])
    decreases |s|
  {
    hide FallbackChar, Stripped;
    if s != [] && Stripped(s[|s| - 1]) { StripRightFacts(s[..|s| - 1]); }
  }

  lemma FallbackFacts(name: string)
    requires NameOk(name)
    ensures var f := Fallback(name); AllFallback(f) && 1 <= |f| <= 255 && f[0] != '.'
  {
    StripLeftFacts(Replaced(name));
    StripRightFacts(StripLeft(Replaced(name)));
  }

  lemma {:induction false} SpanStops(s: string, tail: string)
    requires AllFallback(s) && (tail == [] || !FallbackChar(tail[0]))
    ensures Span(s + tail) == |s|
    decreases |s|
  {
    hide FallbackChar;
    if s == [] {
      assert s + tail == tail;
    } else {
      assert (s + tail)[1..] == s[1..] + tail;
      SpanStops(s[1..], tail);
    }
  }

  lemma {:induction false} QuotedChars(b: seq<byte>)
    ensures forall i :: 0 <= i < |QuoteBytes(b)| ==> EncodedChar(QuoteBytes(b)[i])
    decreases |b|
  {
    if b != [] {
      QuotedChars(b[1..]);
      var head, tail := QuoteByte(b[0]), QuoteBytes(b[1..]);
      forall i | 0 <= i < |head| ensures EncodedChar(head[i]) {}
      hide EncodedChar, QuoteByte;
      forall i | 0 <= i < |head + tail| ensures EncodedChar((head + tail)[i]) {
        if i >= |head| { assert (head + tail)[i] == tail[i - |head|]; }
      }
    }
  }

  /** The checker's pattern reads back exactly the two parts the printer wrote. */
  lemma HeaderMatches(fallback: string, encoded: string)
    requires AllFallback(fallback) && 1 <= |fallback| <= 255 && 1 <= |encoded| <= 2048
    requires forall i :: 0 <= i < |encoded| ==> EncodedChar(encoded[i])
    ensures Match(Header(fallback, encoded)) == Some((fallback, encoded))
  {
    hide EncodedChar;
    var v := Header(fallback, encoded);
    var rest := v[|PREFIX|..];
    var tail := MIDDLE + encoded;
    assert rest == fallback + tail;
    assert tail[0] == '"';
    SpanStops(fallback, tail);
    assert rest[|fallback|..] == tail && rest[..|fallback|] == fallback;
    assert tail[|MIDDLE|..] == encoded;
  }

  predicate Plain(c: char) { ' ' <= c && c != '\U{7f}' }

  lemma HeaderHasNoControl(fallback: string, encoded: string)
    requires AllFallback(fallback) && forall i :: 0 <= i < |encoded| ==> EncodedChar(encoded[i])
    ensures !ContainsControl(Header(fallback, encoded))
  {
    forall i | 0 <= i < |PREFIX| ensures Plain(PREFIX[i]) {}
    forall i | 0 <= i < |MIDDLE| ensures Plain(MIDDLE[i]) {}
    forall i | 0 <= i < |fallback| ensures Plain(fallback[i]) {}
    forall i | 0 <= i < |encoded| ensures Plain(encoded[i]) {}
    AllPlain(PREFIX, fallback);
    AllPlain(PREFIX + fallback, MIDDLE);
    AllPlain(PREFIX + fallback + MIDDLE, encoded);
  }

  lemma AllPlain(a: string, b: string)
    requires forall i :: 0 <= i < |a| ==> Plain(a[i])
    requires forall i :: 0 <= i < |b| ==> Plain(b[i])
    ensures forall i :: 0 <= i < |a + b| ==> Plain((a + b)[i])
  {
  }

  // ---------- Printer and checker agree ----------

  lemma DotsAreOk(name: string)
    requires IsDots(name)
    ensures NameOk(name)
  {
    assert Utf8('.') == [46] && Encode("") == [];
    assert "."[1..] == "" && ".."[1..] == ".";
    assert Encode(".") == Utf8('.') + Encode("");
    assert Encode("..") == Utf8('.') + Encode(".");
  }

  /** A header with a fitting fallback and the one encoding of a name that is safe to announce. */
  ghost predicate Announces(v: string, fallback: string, name: string) {
    && v == Header(fallback, Quote(name))
    && AllFallback(fallback) && 1 <= |fallback| <= 255 && fallback[0] != '.'
    && NameOk(name) && !IsDots(name)
  }

  /** What the checker sees in a header that has a fitting fallback and an encoded name. */
  lemma EncodedIsRead(fallback: string, name: string)
    requires AllFallback(fallback) && 1 <= |fallback| <= 255 && NameOk(name)
    ensures var v := Header(fallback, Quote(name));
            && !ContainsControl(v) && Match(v) == Some((fallback, Quote(name)))
            && Unquote(Quote(name)) == Encode(name) && Decode(Encode(name)) == Some(name)
            && v != DEFAULT_HEADER
  {
    QuotedChars(Encode(name));
    QuoteRoundTrip(Encode(name));
    Utf8RoundTrip(name);
    var q := Quote(name);
    assert 1 <= |q| <= 2048;
    hide Match, Encode, Unquote, Decode, EncodedChar, FallbackChar, ContainsControl;
    HeaderMatches(fallback, q);
    HeaderHasNoControl(fallback, q);
    assert |Header(fallback, q)| > |DEFAULT_HEADER|;
  }

  /** The checker returns the printed header unchanged, for every filename but the two dot names. */
  lemma PrinterAndCheckerAgree(name: string)
    ensures Checked(Printed(name)) == Printed(name) <==> !IsDots(name)
  {
    if NameOk(name) {
      PrintedIsChecked(name);
    } else {
      OthersBecomeDefault(DEFAULT_HEADER);
      hide Checked;
      if IsDots(name) { DotsAreOk(name); }
    }
  }

  lemma PrintedIsChecked(name: string)
    requires NameOk(name)
    ensures Checked(Printed(name)) == Printed(name) <==> !IsDots(name)
  {
    hide Match, Fallback, Encode, Unquote, Decode, ContainsControl, Quote, Header, AllFallback;
    FallbackFacts(name);
    EncodedIsRead(Fallback(name), name);
  }

  lemma {:induction false} SpanIsFallback(s: string)
    ensures AllFallback(s[..Span(s)])
    decreases |s|
  {
    hide FallbackChar;
    if s != [] && FallbackChar(s[0]) {
      SpanIsFallback(s[1..]);
      assert s[..Span(s)] == [s[0]] + s[1..][..Span(s[1..])];
    }
  }

  lemma MatchSplits(v: string)
    requires Match(v).Some?
    ensures var (fallback, encoded) := Match(v).value;
            v == Header(fallback, encoded) && AllFallback(fallback) && 1 <= |fallback| <= 255
  {
    SpanIsFallback(v[|PREFIX|..]);
    hide FallbackChar;
  }

  /** A header the checker lets through announces a safe name. */
  lemma PassedIsAnnounced(v: string)
    requires Checked(v) == v && v != DEFAULT_HEADER
    ensures exists fallback, name :: Announces(v, fallback, name)
  {
    var (fallback, encoded) := Match(v).value;
    var name := Decode(Unquote(encoded)).value;
    MatchSplits(v);
    QuoteRoundTrip(Encode(name));
    hide Match, Unquote, Decode, ContainsControl, QuoteBytes, Encode, Header, AllFallback;
    assert Announces(v, fallback, name);
  }

  /** The checker returns a header other than the default exactly when it announces a safe name, of
      at most 255 bytes, in its one canonical encoding. */
  lemma CheckerPassesExactly(v: string)
    ensures Checked(v) == v && v != DEFAULT_HEADER <==> exists fallback, name :: Announces(v, fallback, name)
  {
    if Checked(v) == v && v != DEFAULT_HEADER {
      PassedIsAnnounced(v);
    }
    if fallback, name :| Announces(v, fallback, name) {
      EncodedIsRead(fallback, name);
      hide Match, Unquote, Decode, ContainsControl, Encode, Header, AllFallback;
    }
  }

  /** Every other header is replaced by the default. */
  lemma OthersBecomeDefault(v: string)
    ensures Checked(v) == v || Checked(v) == DEFAULT_HEADER
  {
    hide Match, Unquote, Decode, ContainsControl, Encode;
  }

  // ---------- What is printed ----------

  /** The name that a header announces in its encoded part. */
  function Announced(v: string): Option<string> {
    var m := Match(v);
    if m.None? then None else Decode(Unquote(m.value.1))
  }

  /** An acceptable name is announced as it is; any other gets the default header. */
  lemma PrintedAnnouncesTheName(name: string)
    ensures NameOk(name) ==>
              && Printed(name) != DEFAULT_HEADER && Announced(Printed(name)) == Some(name)
              && Match(Printed(name)) == Some((Fallback(name), Quote(name)))
    ensures !NameOk(name) ==> Printed(name) == DEFAULT_HEADER == "attachment; filename=\"download\""
  {
    if NameOk(name) {
      hide Match, Fallback, Encode, Unquote, Decode, ContainsControl, Quote, Header, AllFallback;
      FallbackFacts(name);
      EncodedIsRead(Fallback(name), name);
    }
  }

  lemma {:induction false} PlainBytes(s: string)
    requires forall i :: 0 <= i < |s| ==> s[i] as int < 128
    ensures |Encode(s)| == |s| && forall i :: 0 <= i < |s| ==> Encode(s)[i] == s[i] as int
    decreases |s|
  {
    if s != [] {
      PlainBytes(s[1..]);
      assert Utf8(s[0]) == [s[0] as int];
    }
  }

  predicate Printable(c: char) { ' ' <= c < '\U{7f}' && c != '/' && c != '\\' }

  /** Names are acceptable unless they are empty, longer than 255 bytes, or hold a separator or a control
      character, wherever it is. */
  lemma AcceptableNames(name: string, i: nat)
    ensures !NameOk("")
    ensures i < |name| && (name[i] == '/' || name[i] == '\\' || name[i] < ' ' || name[i] == '\U{7f}') ==> !NameOk(name)
    ensures |name| > 255 ==> !NameOk(name)
    ensures 1 <= |name| <= 255 && (forall k :: 0 <= k < |name| ==> Printable(name[k])) ==> NameOk(name)
  {
    if forall k :: 0 <= k < |name| ==> name[k] as int < 128 { PlainBytes(name); }
  }

  lemma {:induction false} NothingToStrip(s: string)
    requires AllFallback(s) && (s != [] ==> !Stripped(s[0]) && !Stripped(s[|s| - 1]))
    ensures StripLeft(s) == s && StripRight(s) == s
  {
  }

  /** A plain name is its own fallback; other characters become underscores. */
  lemma FallbackKeepsPlainNames(name: string)
    requires name != [] && !Stripped(name[0]) && !Stripped(name[|name| - 1])
    ensures AllFallback(name) ==> Fallback(name) == name
    ensures FallbackChar(name[0]) && FallbackChar(name[|name| - 1]) ==>
              |Fallback(name)| == |name|
              && forall i :: 0 <= i < |name| ==> Fallback(name)[i] == if FallbackChar(name[i]) then name[i] else '_'
  {
    var r := Replaced(name);
    hide FallbackChar;
    if AllFallback(name) { assert r == name; }
    if FallbackChar(name[0]) && FallbackChar(name[|name| - 1]) {
      assert r[0] == name[0] && r[|r| - 1] == name[|name| - 1];
    }
  }

  /** A name with nothing to keep falls back to a fixed word. */
  lemma FallbackOfNothing(name: string)
    requires forall i :: 0 <= i < |name| ==> Stripped(name[i]) || !FallbackChar(name[i])
    ensures Fallback(name) == "download"
  {
    AllStripped(Replaced(name));
  }

  lemma {:induction false} AllStripped(s: string)
    requires forall i :: 0 <= i < |s| ==> Stripped(s[i])
    ensures StripLeft(s) == []
    decreases |s|
  {
    if s != [] { AllStripped(s[1..]); }
  }

  /** Each byte is printed as itself when it is unreserved, and otherwise as a percent sign and two
      digits, of which the letters are capitals. */
  lemma QuoteIsCanonical(b: byte)
    ensures b < 128 && Unreserved(b as char) ==> QuoteByte(b) == [b as char]
    ensures b >= 128 || !Unreserved(b as char) ==>
              && |QuoteByte(b)| == 3 && QuoteByte(b)[0] == '%'
              && (forall i :: 1 <= i < 3 ==> '0' <= QuoteByte(b)[i] <= '9' || 'A' <= QuoteByte(b)[i] <= 'F')
              && HexValue(QuoteByte(b)[1]) == Some(b / 16) && HexValue(QuoteByte(b)[2]) == Some(b % 16)
  {
    HexIsCapital(b / 16);
    HexIsCapital(b % 16);
    hide Hex, HexValue, Unreserved;
  }

  lemma HexIsCapital(d: int)
    requires 0 <= d < 16
    ensures ('0' <= Hex(d) <= '9' || 'A' <= Hex(d) <= 'F') && HexValue(Hex(d)) == Some(d)
  {
  }

  lemma UnreservedCharacters(c: char)
    ensures Unreserved(c) <==>
            'A' <= c <= 'Z' || 'a' <= c <= 'z' || '0' <= c <= '9' || c == '_' || c == '.' || c == '-' || c == '~'
  {
  }

  /** One sample for each length of the encoding, and the bytes that never start or continue one. */
  lemma Utf8Samples(rest: seq<byte>)
    ensures Utf8('A') == [0x41] && Utf8('\U{E9}') == [0xC3, 0xA9]
    ensures Utf8('\U{20AC}') == [0xE2, 0x82, 0xAC] && Utf8('\U{1F600}') == [0xF0, 0x9F, 0x98, 0x80]
    ensures DecodeOne([0xC0, 0x80] + rest).None? && DecodeOne([0x80] + rest).None? && DecodeOne([0xFF] + rest).None?
    ensures DecodeOne([0xED, 0xA0, 0x80] + rest).None? && DecodeOne([0xE0, 0x80, 0x80] + rest).None?
    ensures DecodeOne([0xF4, 0x90, 0x80, 0x80] + rest).None? && DecodeOne([0xC3]).None?
  {
  }
}
