/** `encodeURIComponent` and `decodeURIComponent`, as the auth callback uses them to carry an
    error message in the `error` query parameter of the login page: characters outside the
    unreserved set are written as the `%XX` escapes of their UTF-8 bytes, with upper-case hex
    digits. */
module UriEncoding {
  import opened Wrappers

  /** The characters `encodeURIComponent` leaves as they are. */
  predicate Unreserved(c: char)
  {
    ('A' <= c <= 'Z') || ('a' <= c <= 'z') || ('0' <= c <= '9')
    || c == '-' || c == '_' || c == '.' || c == '!' || c == '~' || c == '*' || c == '\''
    || c == '(' || c == ')'
  }

  predicate IsHex(c: char)
  {
    ('0' <= c <= '9') || ('A' <= c <= 'F') || ('a' <= c <= 'f')
  }

  /** The upper-case hex digit of `d`. */
  function HexDigit(d: nat): (c: char)
    requires d < 16
    ensures IsHex(c) && !('a' <= c <= 'f')
  {
    if d < 10 then ('0' as int + d) as char else ('A' as int + d - 10) as char
  }

  function HexValue(c: char): (d: nat)
    requires IsHex(c)
    ensures d < 16
  {
    if c <= '9' then c as int - '0' as int
    else if c <= 'F' then c as int - 'A' as int + 10
    else c as int - 'a' as int + 10
  }

  lemma HexRoundTrip(d: nat)
    requires d < 16
    ensures HexValue(HexDigit(d)) == d
  {
  }

  /** The escape of one byte. */
  function Percent(b: nat): (r: string)
    requires b < 256
    ensures |r| == 3 && r[0] == '%' && IsHex(r[1]) && IsHex(r[2])
  {
    ['%', HexDigit(b / 16), HexDigit(b % 16)]
  }

  /** The escapes of the UTF-8 bytes of `c`, one to four of them by the size of its code
      point. */
  function Utf8Escapes(c: char): string
  {
    var n := c as int;
    if n < 0x80 then Percent(n)
    else if n < 0x800 then TwoEscapes(n)
    else if n < 0x1_0000 then ThreeEscapes(n)
    else FourEscapes(n)
  }

  /** The escapes of a two-byte sequence: five and six bits of the code point. */
  function TwoEscapes(n: nat): string
    requires n < 0x800
  {
    Percent(0xC0 + n / 64) + Percent(0x80 + n % 64)
  }

  /** The escapes of a three-byte sequence: four, six and six bits. */
  function ThreeEscapes(n: nat): string
    requires n < 0x1_0000
  {
    var n1 := n / 64;
    Percent(0xE0 + n1 / 64) + Percent(0x80 + n1 % 64) + Percent(0x80 + n % 64)
  }

  /** The escapes of a four-byte sequence: three, six, six and six bits. */
  function FourEscapes(n: nat): string
    requires n < 0x11_0000
  {
    var n1 := n / 64;
    var n2 := n1 / 64;
    Percent(0xF0 + n2 / 64) + Percent(0x80 + n2 % 64) + Percent(0x80 + n1 % 64)
    + Percent(0x80 + n % 64)
  }

  function EncodeChar(c: char): string
  {
    if Unreserved(c) then [c] else Utf8Escapes(c)
  }

  /** `encodeURIComponent(s)`. Dafny characters are Unicode scalar values, so the lone
      surrogates on which JavaScript throws do not arise. */
  function Encode(s: string): string
  {
    if s == [] then "" else EncodeChar(s[0]) + Encode(s[1..])
  }

  /** A character that can appear in an encoded text. */
  predicate Encoded(c: char)
  {
    Unreserved(c) || c == '%' || IsHex(c)
  }

  /** Encoded text holds only unreserved characters, '%' and hex digits: no '&', '=', '#',
      '?', '/' or space, so it never ends or splits the query parameter that carries it. */
  lemma {:induction false} EncodeIsSafe(s: string)
    ensures forall i :: 0 <= i < |Encode(s)| ==> Encoded(Encode(s)[i])
    decreases |s|
  {
    if s != [] {
      EncodeIsSafe(s[1..]);
      var e := EncodeChar(s[0]);
      assert forall i :: 0 <= i < |e| ==> Encoded(e[i]);
      assert Encode(s) == e + Encode(s[1..]);
    }
  }

  /** Text made only of unreserved characters is its own encoding. */
  lemma {:induction false} EncodeUnreserved(s: string)
    requires forall i :: 0 <= i < |s| ==> Unreserved(s[i])
    ensures Encode(s) == s
    decreases |s|
  {
    if s != [] {
      EncodeUnreserved(s[1..]);
      assert s == [s[0]] + s[1..];
    }
  }

  /** The byte escaped at position `i`, if there is a well-formed escape there. */
  function ByteAt(s: string, i: nat): (r: Option<nat>)
    ensures r.Some? ==> r.value < 256
  {
    if i + 3 <= |s| && s[i] == '%' && IsHex(s[i + 1]) && IsHex(s[i + 2])
    then Some(16 * HexValue(s[i + 1]) + HexValue(s[i + 2]))
    else None
  }

  /** The six payload bits of a continuation byte escaped at position `i`. */
  function ContAt(s: string, i: nat): (r: Option<nat>)
    ensures r.Some? ==> r.value < 64
  {
    var b := ByteAt(s, i);
    if b.Some? && 0x80 <= b.value < 0xC0 then Some(b.value - 0x80) else None
  }

  predicate IsScalar(n: int)
  {
    (0 <= n < 0xD800) || (0xE000 <= n < 0x11_0000)
  }

  /** The code point of the escaped UTF-8 sequence at the start of `s`, with the number of
      characters its escapes take; `None` where `decodeURIComponent` throws: a malformed
      escape, a bad lead or continuation byte, an over-long form, a surrogate or a value
      past U+10FFFF. */
  function Utf8At(s: string): (r: Option<(nat, nat)>)
    ensures r.Some? ==> IsScalar(r.value.0) && 3 <= r.value.1 <= |s|
  {
    var b := ByteAt(s, 0);
    if b.None? then None
    else if b.value < 0x80 then Some((b.value, 3))
    else if 0xC0 <= b.value < 0xE0 then TwoAt(s, b.value - 0xC0)
    else if 0xE0 <= b.value < 0xF0 then ThreeAt(s, b.value - 0xE0)
    else if 0xF0 <= b.value < 0xF8 then FourAt(s, b.value - 0xF0)
    else None
  }

  /** A two-byte sequence whose lead byte carries `lead`. */
  function TwoAt(s: string, lead: nat): (r: Option<(nat, nat)>)
    requires ByteAt(s, 0).Some? && lead < 32
    ensures r.Some? ==> IsScalar(r.value.0) && r.value.1 == 6 <= |s|
  {
    var x := ContAt(s, 3);
    if x.None? then None
    else
      var n := lead * 64 + x.value;
      if 0x80 <= n then Some((n, 6)) else None
  }

  /** A three-byte sequence whose lead byte carries `lead`. */
  function ThreeAt(s: string, lead: nat): (r: Option<(nat, nat)>)
    requires ByteAt(s, 0).Some? && lead < 16
    ensures r.Some? ==> IsScalar(r.value.0) && r.value.1 == 9 <= |s|
  {
    var x := ContAt(s, 3);
    var y := ContAt(s, 6);
    if x.None? || y.None? then None
    else
      var n := (lead * 64 + x.value) * 64 + y.value;
      if 0x800 <= n && IsScalar(n) then Some((n, 9)) else None
  }

  /** A four-byte sequence whose lead byte carries `lead`. */
  function FourAt(s: string, lead: nat): (r: Option<(nat, nat)>)
    requires ByteAt(s, 0).Some? && lead < 8
    ensures r.Some? ==> IsScalar(r.value.0) && r.value.1 == 12 <= |s|
  {
    var x := ContAt(s, 3);
    var y := ContAt(s, 6);
    var z := ContAt(s, 9);
    if x.None? || y.None? || z.None? then None
    else
      var n := ((lead * 64 + x.value) * 64 + y.value) * 64 + z.value;
      if 0x1_0000 <= n < 0x11_0000 then Some((n, 12)) else None
  }

  /** `decodeURIComponent(s)`, `None` where it throws `URIError`. */
  function Decode(s: string): Option<string>
    decreases |s|
  {
    if s == [] then Some("")
    else if s[0] != '%' then
      var rest := Decode(s[1..]);
      if rest.None? then None else Some([s[0]] + rest.value)
    else
      var u := Utf8At(s);
      if u.None? then None
      else
        var rest := Decode(s[u.value.1..]);
        if rest.None? then None else Some([u.value.0 as char] + rest.value)
  }

  lemma PercentAt(s: string, i: nat, b: nat)
    requires b < 256 && i + 3 <= |s|
    requires s[i] == '%' && s[i + 1] == HexDigit(b / 16) && s[i + 2] == HexDigit(b % 16)
    ensures ByteAt(s, i) == Some(b)
  {
    HexRoundTrip(b / 16);
    HexRoundTrip(b % 16);
  }

  /** The escapes of a character read back as its code point. */
  lemma Utf8RoundTrip(c: char, t: string)
    ensures Utf8At(Utf8Escapes(c) + t) == Some((c as int, |Utf8Escapes(c)|))
  {
    var n := c as int;
    if n < 0x80 {
      PercentAt(Utf8Escapes(c) + t, 0, n);
    } else if n < 0x800 {
      TwoBytes(n, t);
    } else if n < 0x1_0000 {
      ThreeBytes(n, t);
    } else {
      FourBytes(n, t);
    }
  }

  lemma TwoBytes(n: nat, t: string)
    requires 0x80 <= n < 0x800
    ensures Utf8At(TwoEscapes(n) + t) == Some((n, 6))
  {
    var s := TwoEscapes(n) + t;
    PercentAt(s, 0, 0xC0 + n / 64);
    PercentAt(s, 3, 0x80 + n % 64);
  }

  lemma ThreeBytes(n: nat, t: string)
    requires 0x800 <= n < 0x1_0000
    ensures Utf8At(ThreeEscapes(n) + t) == if IsScalar(n) then Some((n, 9)) else None
  {
    var s := ThreeEscapes(n) + t;
    var n1 := n / 64;
    PercentAt(s, 0, 0xE0 + n1 / 64);
    PercentAt(s, 3, 0x80 + n1 % 64);
    PercentAt(s, 6, 0x80 + n % 64);
  }

  lemma FourBytes(n: nat, t: string)
    requires 0x1_0000 <= n < 0x11_0000
    ensures Utf8At(FourEscapes(n) + t) == Some((n, 12))
  {
    var s := FourEscapes(n) + t;
    var n1 := n / 64;
    var n2 := n1 / 64;
    PercentAt(s, 0, 0xF0 + n2 / 64);
    PercentAt(s, 3, 0x80 + n2 % 64);
    PercentAt(s, 6, 0x80 + n1 % 64);
    PercentAt(s, 9, 0x80 + n % 64);
  }

  /** Decoding the encoding of one character and then of the rest. */
  lemma DecodeStep(c: char, t: string)
    ensures Decode(EncodeChar(c) + t)
            == if Decode(t).None? then None else Some([c] + Decode(t).value)
  {
    var s := EncodeChar(c) + t;
    if Unreserved(c) {
      assert s[1..] == t;
    } else {
      Utf8RoundTrip(c, t);
      assert s[|Utf8Escapes(c)|..] == t;
    }
  }

  /** `decodeURIComponent(encodeURIComponent(s)) == s`: decoding the `error` parameter once
      gives back the message the callback put in it. */
  lemma {:induction false} DecodeEncode(s: string)
    ensures Decode(Encode(s)) == Some(s)
    decreases |s|
  {
    if s != [] {
      DecodeEncode(s[1..]);
      DecodeStep(s[0], Encode(s[1..]));
      assert s == [s[0]] + s[1..];
    }
  }

  /** `decodeURIComponent` throws when the first '%' of the text does not start a
      well-formed escape. */
  lemma {:induction false} DecodeStopsAtBadEscape(s: string, i: nat)
    requires i < |s| && s[i] == '%' && ByteAt(s, i).None?
    requires forall j :: 0 <= j < i ==> s[j] != '%'
    ensures Decode(s) == None
    decreases i
  {
    if i > 0 {
      var t := s[1..];
      assert t[i - 1] == s[i];
      assert ByteAt(t, i - 1) == ByteAt(s, i) by {
        if i + 3 <= |s| {
          assert t[i] == s[i + 1] && t[i + 1] == s[i + 2];
        }
      }
      DecodeStopsAtBadEscape(t, i - 1);
    }
  }

  /** Encoding is one-to-one: two messages never give the same parameter. */
  lemma EncodeInjective(s: string, t: string)
    requires Encode(s) == Encode(t)
    ensures s == t
  {
    DecodeEncode(s);
    DecodeEncode(t);
  }
}
