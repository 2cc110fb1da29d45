/** Percent-encoding of query names and values: UTF-8, quote_plus and unquote with '+' as the space. */
module Percent {
  type byte = b: int | 0 <= b < 256

  // ---------------------------------------------------------------- UTF-8

  function EncodeChar(c: char): (r: seq<byte>)
    ensures 1 <= |r| <= 4
  {
    var n := c as int;
    if n < 0x80 then [n]
    else if n < 0x800 then [0xC0 + n / 64, 0x80 + n % 64]
    else if n < 0x10000 then [0xE0 + n / 4096, 0x80 + n / 64 % 64, 0x80 + n % 64]
    else [0xF0 + n / 262144, 0x80 + n / 4096 % 64, 0x80 + n / 64 % 64, 0x80 + n % 64]
  }

  function EncodeText(s: string): seq<byte> {
    if s == "" then [] else EncodeChar(s[0]) + EncodeText(s[1..])
  }

  const REPLACEMENT := '\U{FFFD}'

  predicate Tail(bs: seq<byte>, i: nat) {
    i < |bs| && 0x80 <= bs[i] <= 0xBF
  }

  /** The second byte, narrower behind E0, ED, F0 and F4: no overlong forms, surrogates or too large values. */
  predicate Second(bs: seq<byte>) {
    && Tail(bs, 1)
    && (bs[0] == 0xE0 ==> 0xA0 <= bs[1]) && (bs[0] == 0xED ==> bs[1] <= 0x9F)
    && (bs[0] == 0xF0 ==> 0x90 <= bs[1]) && (bs[0] == 0xF4 ==> bs[1] <= 0x8F)
  }

  function Two(a: int, b: int): int {
    (a - 0xC0) * 64 + (b - 0x80)
  }

  function Three(a: int, b: int, c: int): int {
    (a - 0xE0) * 4096 + (b - 0x80) * 64 + (c - 0x80)
  }

  function Four(a: int, b: int, c: int, d: int): int {
    (a - 0xF0) * 262144 + (b - 0x80) * 4096 + (c - 0x80) * 64 + (d - 0x80)
  }

  datatype Decoded = Decoded(c: char, length: nat)

  /** The first character; the longest start of a well-formed sequence that does not go on is replaced. */
  function DecodeOne(bs: seq<byte>): (d: Decoded)
    requires bs != []
    ensures 1 <= d.length <= |bs|
  {
    var b: int := bs[0];
    if b < 0x80 then Decoded(b as char, 1)
    else if 0xC2 <= b <= 0xDF then
      if Tail(bs, 1) then Decoded(Two(b, bs[1]) as char, 2) else Decoded(REPLACEMENT, 1)
    else if 0xE0 <= b <= 0xEF then
      if !Second(bs) then Decoded(REPLACEMENT, 1)
      else if !Tail(bs, 2) then Decoded(REPLACEMENT, 2)
      else Decoded(Three(b, bs[1], bs[2]) as char, 3)
    else if 0xF0 <= b <= 0xF4 then
      if !Second(bs) then Decoded(REPLACEMENT, 1)
      else if !Tail(bs, 2) then Decoded(REPLACEMENT, 2)
      else if !Tail(bs, 3) then Decoded(REPLACEMENT, 3)
      else Decoded(Four(b, bs[1], bs[2], bs[3]) as char, 4)
    else Decoded(REPLACEMENT, 1)
  }

  function DecodeText(bs: seq<byte>): string {
    if bs == [] then "" else [DecodeOne(bs).c] + DecodeText(bs[DecodeOne(bs).length..])
  }

  lemma TwoDigits(n: int)
    requires 0x80 <= n < 0x800
    ensures Two(0xC0 + n / 64, 0x80 + n % 64) == n && 2 <= n / 64 < 32
  {
  }

  lemma ThreeDigits(n: int)
    requires 0x800 <= n < 0x10000
    ensures Three(0xE0 + n / 4096, 0x80 + n / 64 % 64, 0x80 + n % 64) == n && n / 4096 < 16
    ensures n / 4096 == 0 ==> n / 64 % 64 >= 32
    ensures n / 4096 == 13 && n < 0xD800 ==> n / 64 % 64 < 32
  {
    assert n / 64 == n / 4096 * 64 + n / 64 % 64;
  }

  lemma FourDigits(n: int)
    requires 0x10000 <= n < 0x11_0000
    ensures Four(0xF0 + n / 262144, 0x80 + n / 4096 % 64, 0x80 + n / 64 % 64, 0x80 + n % 64) == n
    ensures n / 262144 <= 4
    ensures n / 262144 == 0 ==> n / 4096 % 64 >= 16
    ensures n / 262144 == 4 ==> n / 4096 % 64 < 16
  {
    assert n / 64 == n / 4096 * 64 + n / 64 % 64;
    assert n / 4096 == n / 262144 * 64 + n / 4096 % 64;
  }

  /** The bytes of a character are its value in base 64, behind a lead byte that tells how many there are; none is
      longer than it has to be. */
  lemma Utf8(c: char)
    ensures var n, b := c as int, EncodeChar(c);
            && (forall i :: 1 <= i < |b| ==> 0x80 <= b[i] < 0xC0)
            && (|b| == 1 ==> n < 0x80 && b[0] == n)
            && (|b| == 2 ==> 0x80 <= n < 0x800 && 0xC0 <= b[0] < 0xE0 && Two(b[0], b[1]) == n)
            && (|b| == 3 ==> 0x800 <= n < 0x10000 && 0xE0 <= b[0] < 0xF0 && Three(b[0], b[1], b[2]) == n)
            && (|b| == 4 ==> 0x10000 <= n && 0xF0 <= b[0] < 0xF8 && Four(b[0], b[1], b[2], b[3]) == n)
  {
    var n := c as int;
    if 0x80 <= n < 0x800 {
      TwoDigits(n);
    } else if 0x800 <= n < 0x10000 {
      ThreeDigits(n);
    } else if n >= 0x10000 {
      FourDigits(n);
    }
  }

  /** The digits of a value read from two, three or four bytes. */
  lemma TwoBytes(a: int, b: int)
    requires 0xC2 <= a <= 0xDF && 0x80 <= b <= 0xBF
    ensures 0x80 <= Two(a, b) < 0x800 && a == 0xC0 + Two(a, b) / 64 && b == 0x80 + Two(a, b) % 64
  {
  }

  lemma ThreeBytes(a: int, b: int, c: int)
    requires 0xE0 <= a <= 0xEF && 0x80 <= b <= 0xBF && 0x80 <= c <= 0xBF && (a == 0xE0 ==> 0xA0 <= b)
    ensures var n := Three(a, b, c);
            0x800 <= n < 0x10000 && a == 0xE0 + n / 4096 && b == 0x80 + n / 64 % 64 && c == 0x80 + n % 64
  {
    var n := Three(a, b, c);
    assert n / 64 == (a - 0xE0) * 64 + (b - 0x80) && n / 4096 == a - 0xE0;
  }

  lemma FourBytes(a: int, b: int, c: int, d: int)
    requires 0xF0 <= a <= 0xF4 && 0x80 <= b <= 0xBF && 0x80 <= c <= 0xBF && 0x80 <= d <= 0xBF
    requires a == 0xF0 ==> 0x90 <= b
    ensures var n := Four(a, b, c, d);
            && 0x10000 <= n && a == 0xF0 + n / 262144 && b == 0x80 + n / 4096 % 64 && c == 0x80 + n / 64 % 64
            && d == 0x80 + n % 64
  {
    var n := Four(a, b, c, d);
    assert n / 64 == (a - 0xF0) * 4096 + (b - 0x80) * 64 + (c - 0x80);
    assert n / 4096 == (a - 0xF0) * 64 + (b - 0x80) && n / 262144 == a - 0xF0;
  }

  /** A character is only read from its own encoding; bytes that start with none are replaced. */
  lemma DecodedOrReplaced(bs: seq<byte>)
    requires bs != []
    ensures var d := DecodeOne(bs);
            d.c == '\U{FFFD}' || (EncodeChar(d.c) <= bs && d.length == |EncodeChar(d.c)|)
  {
    var d := DecodeOne(bs);
    if d.c != REPLACEMENT {
      if d.length == 2 {
        TwoBytes(bs[0], bs[1]);
      } else if d.length == 3 {
        ThreeBytes(bs[0], bs[1], bs[2]);
      } else if d.length == 4 {
        FourBytes(bs[0], bs[1], bs[2], bs[3]);
      }
    }
  }

  /** The bytes behind the first are in their ranges. */
  lemma EncodedShape(c: char)
    ensures var b := EncodeChar(c);
            && (|b| == 1 ==> b[0] < 0x80)
            && (|b| == 2 ==> 0xC2 <= b[0] <= 0xDF && Tail(b, 1))
            && (|b| == 3 ==> 0xE0 <= b[0] <= 0xEF && Second(b) && Tail(b, 2))
            && (|b| == 4 ==> 0xF0 <= b[0] <= 0xF4 && Second(b) && Tail(b, 2) && Tail(b, 3))
  {
    var n := c as int;
    if 0x80 <= n < 0x800 {
      TwoDigits(n);
    } else if 0x800 <= n < 0x10000 {
      ThreeDigits(n);
    } else if n >= 0x10000 {
      FourDigits(n);
    }
  }

  /** The first n bytes are those of some character. */
  ghost predicate Begins(bs: seq<byte>, n: nat) {
    n <= |bs| && exists c :: n <= |EncodeChar(c)| && EncodeChar(c)[..n] == bs[..n]
  }

  lemma BeginsLess(bs: seq<byte>, m: nat, n: nat)
    requires m <= n && Begins(bs, n)
    ensures Begins(bs, m)
  {
    var c :| n <= |EncodeChar(c)| && EncodeChar(c)[..n] == bs[..n];
    assert EncodeChar(c)[..m] == EncodeChar(c)[..n][..m] == bs[..n][..m] == bs[..m];
  }

  /** A replacement stands for the longest start of a character, or for one byte that starts none. */
  lemma ReplacedIsLongestStart(bs: seq<byte>, n: nat)
    requires bs != [] && !(EncodeChar(DecodeOne(bs).c) <= bs)
    ensures DecodeOne(bs).length == 1 || Begins(bs, DecodeOne(bs).length)
    ensures Begins(bs, n) ==> n <= DecodeOne(bs).length
  {
    var length := DecodeOne(bs).length;
    DecodedOrReplaced(bs);
    if length > 1 {
      StartOfSome(bs, length);
    }
    forall c | length < |bs| && length < |EncodeChar(c)|
      ensures EncodeChar(c)[..length + 1] != bs[..length + 1]
    {
      NotLonger(bs, c, length);
    }
    if n > length && Begins(bs, n) {
      BeginsLess(bs, length + 1, n);
    }
  }

  lemma NotLonger(bs: seq<byte>, c: char, length: nat)
    requires bs != [] && !(EncodeChar(DecodeOne(bs).c) <= bs) && length == DecodeOne(bs).length
    requires length < |bs| && length < |EncodeChar(c)|
    ensures EncodeChar(c)[..length + 1] != bs[..length + 1]
  {
    var b := EncodeChar(c);
    EncodedShape(c);
    DecodedOrReplaced(bs);
    assert forall i :: 0 <= i <= length ==> b[..length + 1][i] == b[i] && bs[..length + 1][i] == bs[i];
  }

  lemma StartOfSome(bs: seq<byte>, length: nat)
    requires |bs| >= length && (length == 2 || length == 3) && 0xE0 <= bs[0] <= 0xF4 && Second(bs)
    requires length == 3 ==> 0xF0 <= bs[0] && Tail(bs, 2)
    ensures Begins(bs, length)
  {
    if bs[0] < 0xF0 {
      ThreeBytes(bs[0], bs[1], 0x80);
      var c := Three(bs[0], bs[1], 0x80) as char;
      assert EncodeChar(c)[..2] == bs[..2];
    } else {
      var third := if length == 3 then bs[2] else 0x80;
      FourBytes(bs[0], bs[1], third, 0x80);
      var c := Four(bs[0], bs[1], third, 0x80) as char;
      assert EncodeChar(c)[..length] == bs[..length];
    }
  }

  lemma DecodeEncodeChar(c: char, rest: seq<byte>)
    ensures DecodeOne(EncodeChar(c) + rest) == Decoded(c, |EncodeChar(c)|)
  {
    var n := c as int;
    if 0x80 <= n < 0x800 {
      TwoDigits(n);
    } else if 0x800 <= n < 0x10000 {
      ThreeDigits(n);
    } else if n >= 0x10000 {
      FourDigits(n);
    }
  }

  lemma {:induction false} DecodeEncode(s: string)
    ensures DecodeText(EncodeText(s)) == s
  {
    if s != "" {
      var head, tail := EncodeChar(s[0]), EncodeText(s[1..]);
      DecodeEncodeChar(s[0], tail);
      assert (head + tail)[|head|..] == tail;
      DecodeEncode(s[1..]);
    }
  }

  // ---------------------------------------------------------------- quoting

  predicate Unreserved(c: char) {
    'a' <= c <= 'z' || 'A' <= c <= 'Z' || '0' <= c <= '9' || c == '_' || c == '.' || c == '-' || c == '~'
  }

  /** What quote_plus produces. */
  predicate Quoted(c: char) {
    Unreserved(c) || c == '+' || c == '%'
  }

  function HexDigit(n: int): char
    requires 0 <= n < 16
  {
    "0123456789ABCDEF"[n]
  }

  function HexValue(c: char): (n: int)
    ensures -1 <= n < 16
  {
    if '0' <= c <= '9' then c as int - '0' as int
    else if 'A' <= c <= 'F' then c as int - 'A' as int + 10
    else if 'a' <= c <= 'f' then c as int - 'a' as int + 10
    else -1
  }

  function QuoteByte(b: byte): string {
    if b == 0x20 then "+"
    else if b < 0x80 && Unreserved(b as char) then [b as char]
    else ['%', HexDigit(b / 16), HexDigit(b % 16)]
  }

  function Quote(bs: seq<byte>): string {
    if bs == [] then "" else QuoteByte(bs[0]) + Quote(bs[1..])
  }

  predicate StartsWithEscape(s: string) {
    |s| >= 3 && s[0] == '%' && HexValue(s[1]) >= 0 && HexValue(s[2]) >= 0
  }

  /** A '%' that no two hex digits follow stands for itself. */
  function Unquote(s: string): seq<byte>
    decreases |s|
  {
    if s == "" then []
    else if StartsWithEscape(s) then [16 * HexValue(s[1]) + HexValue(s[2])] + Unquote(s[3..])
    else [if s[0] == '+' then 0x20 else s[0] as int % 256] + Unquote(s[1..])
  }

  lemma UnquoteByte(b: byte, rest: string)
    ensures Unquote(QuoteByte(b) + rest) == [b] + Unquote(rest)
  {
    var s := QuoteByte(b) + rest;
    assert s[|QuoteByte(b)|..] == rest;
    HexRoundTrip(b);
  }

  lemma HexRoundTrip(b: byte)
    ensures HexValue(HexDigit(b / 16)) == b / 16 && HexValue(HexDigit(b % 16)) == b % 16
  {
  }

  lemma {:induction false} UnquoteQuote(bs: seq<byte>)
    ensures Unquote(Quote(bs)) == bs
  {
    if bs != [] {
      UnquoteByte(bs[0], Quote(bs[1..]));
      UnquoteQuote(bs[1..]);
    }
  }

  lemma {:induction false} QuoteBoth(a: seq<byte>, b: seq<byte>)
    ensures Quote(a + b) == Quote(a) + Quote(b)
  {
    if a == [] {
      assert a + b == b;
    } else {
      assert (a + b)[1..] == a[1..] + b;
      QuoteBoth(a[1..], b);
    }
  }

  /** The bytes as '%' and two upper-case digits each. */
  predicate AllEscaped(q: string, bs: seq<byte>) {
    && |q| == 3 * |bs|
    && forall i :: 0 <= i < |bs| ==>
         && q[3 * i] == '%'
         && q[3 * i + 1] == "0123456789ABCDEF"[bs[i] / 16] && q[3 * i + 2] == "0123456789ABCDEF"[bs[i] % 16]
  }

  lemma {:induction false} QuoteEscapes(bs: seq<byte>)
    requires forall i :: 0 <= i < |bs| ==> bs[i] != 0x20 && (bs[i] < 0x80 ==> !Unreserved(bs[i] as char))
    ensures AllEscaped(Quote(bs), bs)
  {
    if bs != [] {
      QuoteEscapes(bs[1..]);
      var head, tail := QuoteByte(bs[0]), Quote(bs[1..]);
      forall i | 0 <= i < |bs|
        ensures var q := head + tail;
                && q[3 * i] == '%'
                && q[3 * i + 1] == "0123456789ABCDEF"[bs[i] / 16] && q[3 * i + 2] == "0123456789ABCDEF"[bs[i] % 16]
      {
        if i > 0 {
          assert bs[i] == bs[1..][i - 1];
        }
      }
    }
  }

  lemma {:induction false} QuoteIsQuoted(bs: seq<byte>)
    ensures forall i :: 0 <= i < |Quote(bs)| ==> Quoted(Quote(bs)[i])
  {
    if bs != [] {
      QuoteIsQuoted(bs[1..]);
    }
  }

  /** A hex digit in either case. */
  predicate IsHex(c: char, n: int)
    requires 0 <= n < 16
  {
    c == "0123456789ABCDEF"[n] || c == "0123456789abcdef"[n]
  }

  lemma HexDigits(c: char)
    ensures forall n :: 0 <= n < 16 ==> (HexValue(c) == n <==> IsHex(c, n))
  {
  }

  /** x stands for the byte: '+' for the space, '%' and two hex digits for any. */
  predicate Escapes(x: string, b: byte) {
    || (x == "+" && b == 0x20)
    || (|x| == 3 && x[0] == '%' && IsHex(x[1], b / 16) && IsHex(x[2], b % 16))
  }

  lemma EscapeAhead(x: string, b: byte, rest: string)
    requires Escapes(x, b)
    ensures Unquote(x + rest) == [b] + Unquote(rest)
  {
    assert (x + rest)[|x|..] == rest;
    if x != "+" {
      HexDigits(x[1]);
      HexDigits(x[2]);
    }
  }

  /** A character that starts no escape stands for itself. */
  lemma PlainAhead(c: char, rest: string)
    requires c != '+' && c as int < 128 && !StartsWithEscape([c] + rest)
    ensures Unquote([c] + rest) == [c as int] + Unquote(rest)
  {
    assert ([c] + rest)[1..] == rest;
  }

  /** The byte a text starts with, escaped or not. */
  function FirstByte(s: string): byte
    requires s != ""
  {
    if StartsWithEscape(s) then 16 * HexValue(s[1]) + HexValue(s[2])
    else if s[0] == '+' then 0x20 else s[0] as int % 256
  }

  /** How many characters it takes. */
  function WidthOf(s: string): nat {
    if StartsWithEscape(s) then 3 else 1
  }

  lemma UnquoteHead(s: string)
    requires s != ""
    ensures WidthOf(s) <= |s| && Unquote(s) == [FirstByte(s)] + Unquote(s[WidthOf(s)..])
  {
  }

  lemma BytesRegroup(x: seq<byte>, y: seq<byte>, z: seq<byte>, tail: seq<byte>, xy: seq<byte>, yz: seq<byte>,
                     all: seq<byte>)
    requires xy == x + y && yz == y + z + tail && all == x + yz
    ensures all == xy + z + tail
  {
  }

  /** A text and what an escape is put behind it start alike. */
  lemma AheadOfEscape(a: string, x: string, b: byte, rest: string, s: string)
    returns (first: byte, a1: string, s1: string)
    requires Escapes(x, b) && s == a + x + rest && a != ""
    ensures |a1| < |a| && s1 == a1 + x + rest
    ensures Unquote(a) == [first] + Unquote(a1) && Unquote(s) == [first] + Unquote(s1)
  {
    StartsAlike(a, x, b, rest, s);
    first, a1, s1 := FirstByte(a), a[WidthOf(a)..], s[WidthOf(a)..];
    UnquoteHead(a);
    UnquoteHead(s);
  }

  /** An escape inside a text is its byte: no escape before it reaches into it, for neither '+' nor '%' is a digit. */
  lemma {:induction false} EscapeInside(a: string, x: string, b: byte, rest: string, s: string)
    requires Escapes(x, b) && s == a + x + rest
    ensures Unquote(s) == Unquote(a) + [b] + Unquote(rest)
    decreases |a|
  {
    if a == "" {
      assert s == x + rest;
      EscapeAhead(x, b, rest);
    } else {
      var first, a1, s1 := AheadOfEscape(a, x, b, rest, s);
      EscapeInside(a1, x, b, rest, s1);
      BytesRegroup([first], Unquote(a1), [b], Unquote(rest), Unquote(a), Unquote(s1), Unquote(s));
    }
  }

  lemma StartsAlike(a: string, x: string, b: byte, rest: string, s: string)
    requires Escapes(x, b) && s == a + x + rest && a != ""
    ensures WidthOf(s) == WidthOf(a) <= |a| && FirstByte(s) == FirstByte(a)
    ensures s[WidthOf(a)..] == a[WidthOf(a)..] + x + rest
  {
    assert s[|a|] == x[0];
    assert forall i :: 0 <= i < |a| ==> s[i] == a[i];
    TailBehind(a, x, rest, WidthOf(a));
  }

  lemma TailBehind(a: string, x: string, rest: string, n: nat)
    requires n <= |a|
    ensures (a + x + rest)[n..] == a[n..] + x + rest
  {
  }

  // ---------------------------------------------------------------- text to query text and back

  function QuotePlus(s: string): string {
    Quote(EncodeText(s))
  }

  function UnquotePlus(s: string): string {
    DecodeText(Unquote(s))
  }

  /** Letters, digits and "_.-~" stand for themselves, a space becomes '+', any other character the escapes of its
      UTF-8 bytes. */
  lemma {:induction false} QuoteAhead(c: char, s: string) returns (q: string)
    ensures QuotePlus([c] + s) == q + QuotePlus(s)
    ensures 'a' <= c <= 'z' || 'A' <= c <= 'Z' || '0' <= c <= '9' || c in "_.-~" ==> q == [c]
    ensures c == ' ' ==> q == "+"
    ensures !('a' <= c <= 'z' || 'A' <= c <= 'Z' || '0' <= c <= '9' || c in "_.-~ ") ==> AllEscaped(q, EncodeChar(c))
  {
    var bs := EncodeChar(c);
    q := Quote(bs);
    assert ([c] + s)[1..] == s;
    QuoteBoth(bs, EncodeText(s));
    if c as int >= 0x80 {
      QuoteEscapes(bs);
    } else if c != ' ' && !Unreserved(c) {
      QuoteEscapes(bs);
    } else {
      assert bs == [c as int] && Quote(bs) == QuoteByte(bs[0]) + Quote([]);
    }
  }

  /** Every text survives quoting, and its quoted form holds no delimiter of a URL or a query. */
  lemma QuoteRoundTrip(s: string)
    ensures UnquotePlus(QuotePlus(s)) == s
    ensures forall i :: 0 <= i < |QuotePlus(s)| ==> Quoted(QuotePlus(s)[i])
  {
    UnquoteQuote(EncodeText(s));
    DecodeEncode(s);
    QuoteIsQuoted(EncodeText(s));
  }
}
