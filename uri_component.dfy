/**
 * JavaScript's `encodeURIComponent`, which the profile page uses to build
 * its feedback `mailto:` link, and `decodeURIComponent` as the reference
 * that undoes it: characters outside the unreserved set are written as the
 * `%XX` escapes of their UTF-8 bytes.
 */
module UriComponent {
  import opened Common

  type Byte = b: int | 0 <= b < 256

  /** The characters `encodeURIComponent` leaves as they are. */
  predicate Unreserved(c: char)
  {
    'A' <= c <= 'Z' || 'a' <= c <= 'z' || '0' <= c <= '9' || c in "-_.!~*'()"
  }

  /** The digits `encodeURIComponent` writes (upper case). */
  predicate IsHex(c: char)
  {
    '0' <= c <= '9' || 'A' <= c <= 'F'
  }

  /** The digits `decodeURIComponent` reads (either case). */
  predicate IsHexAny(c: char)
  {
    IsHex(c) || 'a' <= c <= 'f'
  }

  function HexValue(c: char): (d: int)
    requires IsHexAny(c)
    ensures 0 <= d < 16
  {
    if '0' <= c <= '9' then c as int - '0' as int
    else if 'A' <= c <= 'F' then c as int - 'A' as int + 10
    else c as int - 'a' as int + 10
  }

  function HexDigit(d: int): (c: char)
    requires 0 <= d < 16
    ensures IsHex(c) && HexValue(c) == d
  {
    if d < 10 then ('0' as int + d) as char else ('A' as int + d - 10) as char
  }

  /** `%XX` for one byte. */
  function Pct(b: Byte): (t: string)
    ensures |t| == 3 && t[0] == '%' && IsHex(t[1]) && IsHex(t[2])
    ensures HexValue(t[1]) * 16 + HexValue(t[2]) == b
  {
    ['%', HexDigit(b / 16), HexDigit(b % 16)]
  }

  function PctBytes(bs: seq<Byte>): (t: string)
    ensures |t| == 3 * |bs|
    ensures forall i :: 0 <= i < |t| ==> t[i] == '%' || IsHex(t[i])
  {
    if bs == [] then [] else Pct(bs[0]) + PctBytes(bs[1..])
  }

  /** The UTF-8 bytes of a character. */
  function Utf8(c: char): (bs: seq<Byte>)
    ensures 1 <= |bs| <= 4
    ensures (|bs| == 1) == (c as int < 0x80)
    ensures forall i :: 1 <= i < |bs| ==> 0x80 <= bs[i] < 0xC0
  {
    var n := c as int;
    if n < 0x80 then [n]
    else if n < 0x800 then [0xC0 + n / 64, 0x80 + n % 64]
    else if n < 0x10000 then [0xE0 + n / 4096, 0x80 + (n / 64) % 64, 0x80 + n % 64]
    else [0xF0 + n / 262144, 0x80 + (n / 4096) % 64, 0x80 + (n / 64) % 64, 0x80 + n % 64]
  }

  function EncodeChar(c: char): (t: string)
    ensures t != []
    ensures forall i :: 0 <= i < |t| ==> Unreserved(t[i]) || t[i] == '%' || IsHex(t[i])
  {
    if Unreserved(c) then [c] else PctBytes(Utf8(c))
  }

  /**
   * `encodeURIComponent`: the output holds only unreserved characters and
   * `%XX` escapes, so it never holds `&`, `=`, `?` or `#`.
   */
  function Encode(s: string): (t: string)
    ensures forall i :: 0 <= i < |t| ==> Unreserved(t[i]) || t[i] == '%' || IsHex(t[i])
    ensures '&' !in t && '=' !in t && '?' !in t && '#' !in t
    ensures |t| >= |s|
  {
    if s == [] then [] else EncodeChar(s[0]) + Encode(s[1..])
  }

  /** Encoding works character by character, so it distributes over concatenation. */
  lemma {:induction false} EncodeConcat(a: string, b: string)
    ensures Encode(a + b) == Encode(a) + Encode(b)
  {
    if a != [] {
      assert (a + b)[1..] == a[1..] + b;
      EncodeConcat(a[1..], b);
    } else {
      assert a + b == b;
    }
  }

  /** A text of unreserved characters is left as it is. */
  lemma {:induction false} EncodeUnreserved(s: string)
    requires forall i :: 0 <= i < |s| ==> Unreserved(s[i])
    ensures Encode(s) == s
  {
    if s != [] {
      EncodeUnreserved(s[1..]);
      assert [s[0]] + s[1..] == s;
    }
  }

  /** Two unreserved words joined by a space encode with `%20` in its place. */
  lemma EncodeTwoWords(a: string, b: string)
    requires forall i :: 0 <= i < |a| ==> Unreserved(a[i])
    requires forall i :: 0 <= i < |b| ==> Unreserved(b[i])
    ensures Encode(a + [' '] + b) == a + ['%', '2', '0'] + b
  {
    EncodeConcat(a + [' '], b);
    EncodeConcat(a, [' ']);
    EncodeUnreserved(a);
    EncodeUnreserved(b);
    EncodeSpace();
  }

  /** A space is written `%20`. */
  lemma EncodeSpace()
    ensures Encode([' ']) == ['%', '2', '0']
  {
    assert Utf8(' ') == [32];
    assert Pct(32) == ['%', '2', '0'];
    assert Encode([' ']) == EncodeChar(' ') + Encode([]);
  }

  // ---------------------------------------------------------------------
  // Decoding
  // ---------------------------------------------------------------------

  /** The byte a `%XX` escape at the front of `t` stands for. */
  function ReadByte(t: string): (r: Option<Byte>)
    ensures r.Some? ==> |t| >= 3
  {
    if |t| >= 3 && t[0] == '%' && IsHexAny(t[1]) && IsHexAny(t[2]) then Some(HexValue(t[1]) * 16 + HexValue(t[2]))
    else None
  }

  /** How many continuation bytes a leading byte announces. */
  function Trailing(b: Byte): Option<nat>
  {
    if b < 0x80 then Some(0)
    else if 0xC0 <= b < 0xE0 then Some(1)
    else if 0xE0 <= b < 0xF0 then Some(2)
    else if 0xF0 <= b < 0xF8 then Some(3)
    else None
  }

  /** The marker bits of a leading byte with `n` continuation bytes. */
  function Lead(n: nat): int
  {
    if n == 0 then 0 else if n == 1 then 0xC0 else if n == 2 then 0xE0 else 0xF0
  }

  /** Reads `n` escaped continuation bytes, adding six bits each to `acc`; gives the value and the text after them. */
  function Conts(t: string, n: nat, acc: int): (r: Option<(int, string)>)
    ensures r.Some? ==> |r.value.1| <= |t| - 3 * n
    decreases n
  {
    if n == 0 then Some((acc, t))
    else match ReadByte(t)
      case None => None
      case Some(b) => if 0x80 <= b < 0xC0 then Conts(t[3..], n - 1, acc * 64 + (b as int - 0x80)) else None
  }

  /**
   * The least code point that needs `n` continuation bytes; a longer
   * sequence than a code point needs (an overlong form) is rejected.
   */
  function MinValue(n: nat): int
  {
    if n == 0 then 0 else if n == 1 then 0x80 else if n == 2 then 0x800 else 0x10000
  }

  predicate IsScalar(cp: int)
  {
    0 <= cp < 0xD800 || 0xE000 <= cp < 0x110000
  }

  function Prepend(c: char, rest: Option<string>): Option<string>
  {
    if rest.Some? then Some([c] + rest.value) else None
  }

  /** The character a run of escapes at the front of `t` encodes, and the text after the run. */
  function Escaped(t: string): (r: Option<(char, string)>)
    ensures r.Some? ==> |r.value.1| < |t|
  {
    match ReadByte(t)
    case None => None
    case Some(b0) =>
      match Trailing(b0)
      case None => None
      case Some(n) =>
        match Conts(t[3..], n, b0 - Lead(n))
        case None => None
        case Some((cp, rest)) => if IsScalar(cp) && cp >= MinValue(n) then Some((cp as char, rest)) else None
  }

  /**
   * `decodeURIComponent`: escapes are read as UTF-8, one character at a
   * time, other characters kept; a bad escape, a bad byte sequence, an
   * overlong form or a surrogate fails (None).
   */
  function Decode(t: string): Option<string>
    decreases |t|
  {
    if t == [] then Some([])
    else if t[0] != '%' then Prepend(t[0], Decode(t[1..]))
    else match Escaped(t)
      case None => None
      case Some((c, rest)) => Prepend(c, Decode(rest))
  }

  // ---------------------------------------------------------------------
  // Round trip
  // ---------------------------------------------------------------------

  /** The value the continuation bytes `bs` add to `acc`. */
  function Fold(acc: int, bs: seq<Byte>): int
    decreases |bs|
  {
    if bs == [] then acc else Fold(acc * 64 + (bs[0] as int - 0x80), bs[1..])
  }

  /** An escape written by `Pct` reads back as its byte. */
  lemma ReadPct(b: Byte, rest: string)
    ensures ReadByte(Pct(b) + rest) == Some(b)
  {
    var t := Pct(b) + rest;
    assert t[0] == '%' && t[1] == Pct(b)[1] && t[2] == Pct(b)[2];
  }

  /** The first escape of a run reads back as its byte, and the rest of the run follows it. */
  lemma PctFront(bs: seq<Byte>, rest: string)
    requires bs != []
    ensures ReadByte(PctBytes(bs) + rest) == Some(bs[0])
    ensures (PctBytes(bs) + rest)[3..] == PctBytes(bs[1..]) + rest
  {
    var tail := PctBytes(bs[1..]) + rest;
    var head := Pct(bs[0]);
    assert PctBytes(bs) + rest == head + tail;
    assert |head| == 3;
    assert (head + tail)[3..] == tail;
    ReadPct(bs[0], tail);
  }

  lemma {:induction false} ContsOfPct(bs: seq<Byte>, rest: string, acc: int)
    requires forall i :: 0 <= i < |bs| ==> 0x80 <= bs[i] < 0xC0
    ensures Conts(PctBytes(bs) + rest, |bs|, acc) == Some((Fold(acc, bs), rest))
  {
    if bs != [] {
      var tail := PctBytes(bs[1..]) + rest;
      var t := PctBytes(bs) + rest;
      PctFront(bs, rest);
      var next := acc * 64 + (bs[0] as int - 0x80);
      assert Conts(t, |bs|, acc) == Conts(tail, |bs| - 1, next);
      ContsOfPct(bs[1..], rest, next);
    } else {
      assert PctBytes(bs) + rest == rest;
    }
  }

  lemma DivNest(n: nat)
    ensures n / 4096 == (n / 64) / 64
  {
    var q := n / 64;
    assert n == q * 64 + n % 64;
    assert q == (q / 64) * 64 + q % 64;
    assert n == (q / 64) * 4096 + ((q % 64) * 64 + n % 64);
  }

  lemma FoldTwo(acc: int, x: Byte, y: Byte)
    ensures Fold(acc, [x, y]) == (acc * 64 + (x - 0x80)) * 64 + (y - 0x80)
  {
    assert [x, y][1..] == [y];
    assert [y][1..] == [];
    assert Fold(acc * 64 + (x - 0x80), [y]) == Fold((acc * 64 + (x - 0x80)) * 64 + (y - 0x80), []);
  }

  lemma FoldThree(acc: int, x: Byte, y: Byte, z: Byte)
    ensures Fold(acc, [x, y, z]) == ((acc * 64 + (x - 0x80)) * 64 + (y - 0x80)) * 64 + (z - 0x80)
  {
    assert [x, y, z][1..] == [y, z];
    FoldTwo(acc * 64 + (x - 0x80), y, z);
  }

  /** Reading the UTF-8 bytes back gives the character's code point. */
  lemma Utf8Value(c: char)
    ensures Trailing(Utf8(c)[0]) == Some(|Utf8(c)| - 1)
    ensures Fold(Utf8(c)[0] - Lead(|Utf8(c)| - 1), Utf8(c)[1..]) == c as int
    ensures c as int >= MinValue(|Utf8(c)| - 1)
  {
    var n := c as int;
    var bs := Utf8(c);
    if n < 0x80 {
    } else if n < 0x800 {
      assert bs[1..] == [0x80 + n % 64];
    } else if n < 0x10000 {
      assert bs[1..] == [0x80 + (n / 64) % 64, 0x80 + n % 64];
      FoldTwo(n / 4096, 0x80 + (n / 64) % 64, 0x80 + n % 64);
      DivNest(n);
    } else {
      assert bs[1..] == [0x80 + (n / 4096) % 64, 0x80 + (n / 64) % 64, 0x80 + n % 64];
      FoldThree(n / 262144, 0x80 + (n / 4096) % 64, 0x80 + (n / 64) % 64, 0x80 + n % 64);
      DivNest(n);
      DivNest(n / 64);
      assert n / 262144 == (n / 64) / 4096;
    }
  }

  /** A run whose leading byte, continuation bytes and value are all acceptable reads as that value. */
  lemma EscapedRun(t: string, b0: Byte, n: nat, cp: int, rest: string)
    requires ReadByte(t) == Some(b0) && Trailing(b0) == Some(n)
    requires Conts(t[3..], n, b0 - Lead(n)) == Some((cp, rest))
    requires IsScalar(cp) && cp >= MinValue(n)
    ensures Escaped(t) == Some((cp as char, rest))
  {
  }

  /** Escapes of a well-formed, shortest UTF-8 sequence for a scalar value read back as that value. */
  lemma EscapedBytes(bs: seq<Byte>, rest: string, cp: int)
    requires bs != [] && Trailing(bs[0]) == Some(|bs| - 1)
    requires forall i :: 1 <= i < |bs| ==> 0x80 <= bs[i] < 0xC0
    requires Fold(bs[0] - Lead(|bs| - 1), bs[1..]) == cp
    requires IsScalar(cp) && cp >= MinValue(|bs| - 1)
    ensures Escaped(PctBytes(bs) + rest) == Some((cp as char, rest))
  {
    var t := PctBytes(bs) + rest;
    var tail := bs[1..];
    var acc := bs[0] - Lead(|bs| - 1);
    PctFront(bs, rest);
    assert forall i :: 0 <= i < |tail| ==> 0x80 <= tail[i] < 0xC0 by {
      forall i | 0 <= i < |tail| ensures 0x80 <= tail[i] < 0xC0 {
        assert tail[i] == bs[i + 1];
      }
    }
    ContsOfPct(tail, rest, acc);
    EscapedRun(t, bs[0], |tail|, cp, rest);
  }

  /** The escapes of a character's bytes read back as the character. */
  lemma EscapedPct(c: char, rest: string)
    ensures Escaped(PctBytes(Utf8(c)) + rest) == Some((c, rest))
  {
    Utf8Value(c);
    EscapedBytes(Utf8(c), rest, c as int);
  }

  /** An escaped character decodes back to itself. */
  lemma DecodeEscaped(c: char, rest: string)
    requires !Unreserved(c)
    ensures Decode(PctBytes(Utf8(c)) + rest) == Prepend(c, Decode(rest))
  {
    EscapedPct(c, rest);
    assert (PctBytes(Utf8(c)) + rest)[0] == Pct(Utf8(c)[0])[0];
  }

  lemma DecodeEncodedChar(c: char, rest: string)
    ensures Decode(EncodeChar(c) + rest) == Prepend(c, Decode(rest))
  {
    if Unreserved(c) {
      assert (EncodeChar(c) + rest)[1..] == rest;
    } else {
      DecodeEscaped(c, rest);
    }
  }

  /** Decoding undoes encoding, for every string. */
  lemma {:induction false} DecodeEncode(s: string)
    ensures Decode(Encode(s)) == Some(s)
  {
    if s != [] {
      DecodeEncodedChar(s[0], Encode(s[1..]));
      DecodeEncode(s[1..]);
      assert [s[0]] + s[1..] == s;
    }
  }

  /** The overlong two-byte form of `/` is refused, not read as `/`. */
  lemma DecodeRejectsOverlong()
    ensures Decode("%C0%AF") == None
  {
    var t := "%C0%AF";
    assert ReadByte(t) == Some(0xC0);
    assert ReadByte(t[3..]) == Some(0xAF);
    assert Conts(t[3..], 1, 0) == Some((0x2F, t[6..]));
  }

  // ---------------------------------------------------------------------
  // `mailto:` links with a subject and a body
  // ---------------------------------------------------------------------

  /** A query parameter `name=value`. */
  function Param(name: string, value: string): string
  {
    name + ['='] + value
  }

  /** The link `<to>?subject=<encoded subject>&body=<encoded body>`. */
  function MailtoLink(to: string, subject: string, body: string): string
  {
    to + ['?'] + (Param("subject", Encode(subject)) + ['&'] + Param("body", Encode(body)))
  }

  /** The text after the first `c`, or nothing when there is none. */
  function AfterFirst(s: string, c: char): string
  {
    if |UpTo(s, c)| < |s| then s[|UpTo(s, c)| + 1..] else []
  }

  /**
   * How a mail client reads a `mailto:` link's query: the text after `?`
   * split at `&`, each part a name before `=` and a decoded value after it.
   */
  function QueryParams(href: string): seq<(string, Option<string>)>
  {
    var parts := Split(AfterFirst(href, '?'), '&');
    seq(|parts|, i requires 0 <= i < |parts| => (UpTo(parts[i], '='), Decode(AfterFirst(parts[i], '='))))
  }

  lemma AfterFirstOf(a: string, b: string, c: char)
    requires c !in a
    ensures AfterFirst(a + [c] + b, c) == b && UpTo(a + [c] + b, c) == a
  {
    UpToFirst(a, b, c);
    assert (a + [c] + b)[|a| + 1..] == b;
  }

  lemma ParamHasNoAmpersand(name: string, value: string)
    requires name == "subject" || name == "body"
    requires '&' !in value
    ensures '&' !in Param(name, value) && '=' !in name
  {
    assert forall i :: 0 <= i < |name| ==> name[i] != '&' && name[i] != '=';
  }

  /** The link's query splits at `&` into exactly the two parameters. */
  lemma MailtoParts(to: string, subject: string, body: string)
    requires '?' !in to
    ensures Split(AfterFirst(MailtoLink(to, subject, body), '?'), '&') ==
      [Param("subject", Encode(subject)), Param("body", Encode(body))]
    ensures '=' !in "subject" && '=' !in "body"
  {
    AfterFirstOf(to, Param("subject", Encode(subject)) + ['&'] + Param("body", Encode(body)), '?');
    ParamHasNoAmpersand("subject", Encode(subject));
    ParamHasNoAmpersand("body", Encode(body));
    SplitTwo(Param("subject", Encode(subject)), Param("body", Encode(body)), '&');
  }

  /** A parameter `name=value` with an encoded value reads back as the name and the decoded value. */
  lemma ReadParam(name: string, value: string)
    requires '=' !in name
    ensures (UpTo(Param(name, Encode(value)), '='), Decode(AfterFirst(Param(name, Encode(value)), '='))) ==
      (name, Some(value))
  {
    AfterFirstOf(name, Encode(value), '=');
    DecodeEncode(value);
  }

  /**
   * A `mailto:` link whose address has no `?` carries exactly two
   * parameters, `subject` and `body`, which decode to the texts given:
   * nothing in them can add or break a parameter.
   */
  lemma MailtoReadsBack(to: string, subject: string, body: string)
    requires '?' !in to
    ensures QueryParams(MailtoLink(to, subject, body)) == [("subject", Some(subject)), ("body", Some(body))]
  {
    MailtoParts(to, subject, body);
    ReadParam("subject", subject);
    ReadParam("body", body);
  }
}
