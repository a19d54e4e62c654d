/** The commands of the bus, and the UTF-8 form in which their users travel. */
module Commands {
  import opened Text

  /** A publisher's full id joined or left. */
  datatype Command = PubJoin(user: string) | PubLeft(user: string)

  // ---- UTF-8

  newtype byte = x: int | 0 <= x < 256

  function Utf8Char(c: char): (s: seq<byte>)
    ensures 1 <= |s| <= 4
  {
    var n := c as int;
    if n < 0x80 then [n as byte]
    else if n < 0x800 then [(0xC0 + n / 64) as byte, (0x80 + n % 64) as byte]
    else if n < 0x1_0000 then [(0xE0 + n / 4096) as byte, (0x80 + n / 64 % 64) as byte, (0x80 + n % 64) as byte]
    else
      [(0xF0 + n / 262144) as byte, (0x80 + n / 4096 % 64) as byte,
       (0x80 + n / 64 % 64) as byte, (0x80 + n % 64) as byte]
  }

  function Utf8(s: string): (r: seq<byte>)
    ensures |s| <= |r| <= 4 * |s|
  {
    if s == "" then [] else Utf8Char(s[0]) + Utf8(s[1..])
  }

  predicate IsTail(b: byte) {
    0x80 <= b < 0xC0
  }

  /** A code point that is in the range of its length and no surrogate. */
  function CheckedChar(n: int, least: int): Option<char> {
    if least <= n && (0 <= n < 0xD800 || 0xE000 <= n < 0x11_0000) then Some(n as char) else None
  }

  /** The first character, by the length its first byte announces. */
  function FirstChar(s: seq<byte>): Option<char>
    requires s != []
  {
    var b := s[0] as int;
    if b < 0x80 then CheckedChar(b, 0)
    else if 0xC0 <= b < 0xE0 && |s| >= 2 && IsTail(s[1]) then
      CheckedChar((b - 0xC0) * 64 + (s[1] as int - 0x80), 0x80)
    else if 0xE0 <= b < 0xF0 && |s| >= 3 && IsTail(s[1]) && IsTail(s[2]) then
      CheckedChar((b - 0xE0) * 4096 + (s[1] as int - 0x80) * 64 + (s[2] as int - 0x80), 0x800)
    else if 0xF0 <= b && |s| >= 4 && IsTail(s[1]) && IsTail(s[2]) && IsTail(s[3]) then
      CheckedChar((b - 0xF0) * 262144 + (s[1] as int - 0x80) * 4096 + (s[2] as int - 0x80) * 64 +
                  (s[3] as int - 0x80), 0x1_0000)
    else None
  }

  function FirstLength(s: seq<byte>): (n: nat)
    requires s != []
    ensures 1 <= n <= 4
  {
    if s[0] < 0x80 then 1 else if s[0] < 0xE0 then 2 else if s[0] < 0xF0 then 3 else 4
  }

  /** `String::from_utf8`: nothing but valid UTF-8 is accepted. */
  function FromUtf8(s: seq<byte>): Option<string> {
    if s == [] then Some("")
    else if FirstChar(s).None? || FirstLength(s) > |s| then None
    else
      match FromUtf8(s[FirstLength(s)..])
      case None => None
      case Some(rest) => Some([FirstChar(s).value] + rest)
  }

  lemma Quotient4096(n: nat, q: nat, r: nat)
    requires n == q * 4096 + r && r < 4096
    ensures n / 4096 == q
  {}

  lemma Quotient262144(n: nat, q: nat, r: nat)
    requires n == q * 262144 + r && r < 262144
    ensures n / 262144 == q
  {}

  /** A number is made of its digits to base 64. */
  lemma Base64Digits(n: nat)
    ensures n == n / 64 * 64 + n % 64
    ensures n == n / 4096 * 4096 + n / 64 % 64 * 64 + n % 64
    ensures n == n / 262144 * 262144 + n / 4096 % 64 * 4096 + n / 64 % 64 * 64 + n % 64
  {
    var m := n / 64;
    var l := m / 64;
    Quotient4096(n, l, m % 64 * 64 + n % 64);
    Quotient262144(n, l / 64, l % 64 * 4096 + m % 64 * 64 + n % 64);
  }

  lemma ShortCharRoundTrip(c: char, rest: seq<byte>)
    requires c as int < 0x1_0000
    ensures FirstChar(Utf8Char(c) + rest) == Some(c)
  {
    var n := c as int;
    Base64Digits(n);
    var s := Utf8Char(c) + rest;
    if n < 0x800 {
      assert n >= 0x80 ==> s[0] as int == 0xC0 + n / 64 && s[1] as int == 0x80 + n % 64;
    } else {
      assert s[0] as int == 0xE0 + n / 4096 && s[1] as int == 0x80 + n / 64 % 64 && s[2] as int == 0x80 + n % 64;
    }
  }

  lemma LongCharRoundTrip(c: char, rest: seq<byte>)
    requires c as int >= 0x1_0000
    ensures FirstChar(Utf8Char(c) + rest) == Some(c)
  {
    var n := c as int;
    Base64Digits(n);
    var s := Utf8Char(c) + rest;
    assert s[0] as int == 0xF0 + n / 262144 && s[1] as int == 0x80 + n / 4096 % 64;
    assert s[2] as int == 0x80 + n / 64 % 64 && s[3] as int == 0x80 + n % 64;
  }

  lemma CharRoundTrip(c: char, rest: seq<byte>)
    ensures FirstChar(Utf8Char(c) + rest) == Some(c)
    ensures FirstLength(Utf8Char(c) + rest) == |Utf8Char(c)|
  {
    if c as int < 0x1_0000 {
      ShortCharRoundTrip(c, rest);
    } else {
      LongCharRoundTrip(c, rest);
    }
    assert (Utf8Char(c) + rest)[0] == Utf8Char(c)[0];
  }

  lemma {:induction false} Utf8RoundTrip(s: string)
    ensures FromUtf8(Utf8(s)) == Some(s)
  {
    if s != "" {
      CharRoundTrip(s[0], Utf8(s[1..]));
      Utf8RoundTrip(s[1..]);
      assert Utf8(s)[|Utf8Char(s[0])|..] == Utf8(s[1..]);
      assert [s[0]] + s[1..] == s;
    }
  }

  /** ASCII characters are their own bytes. */
  lemma {:induction false} AsciiIsItself(s: string)
    requires forall c :: c in s ==> c as int < 0x80
    ensures |Utf8(s)| == |s| && forall i :: 0 <= i < |s| ==> Utf8(s)[i] as int == s[i] as int
  {
    if s != "" {
      assert s[0] in s && forall c :: c in s[1..] ==> c in s;
      AsciiIsItself(s[1..]);
      assert Utf8(s) == [s[0] as int as byte] + Utf8(s[1..]);
    }
  }

  lemma Digits(q: nat, r: nat)
    requires r < 64
    ensures (q * 64 + r) / 64 == q && (q * 64 + r) % 64 == r
  {}

  /** The digits to base 64 of a number put together from them. */
  lemma MoreDigits(a: nat, b: nat, c: nat, d: nat)
    requires b < 64 && c < 64 && d < 64
    ensures
      var n := a * 262144 + b * 4096 + c * 64 + d;
      n / 262144 == a && n / 4096 == a * 64 + b && n / 4096 % 64 == b && n / 64 % 64 == c && n % 64 == d
  {
    var n := a * 262144 + b * 4096 + c * 64 + d;
    Digits(a * 4096 + b * 64 + c, d);
    Digits(a * 64 + b, c);
    Digits(a, b);
    Quotient4096(n, a * 64 + b, c * 64 + d);
    Quotient262144(n, a, b * 4096 + c * 64 + d);
  }

  lemma ShortFirstCharIsStrict(s: seq<byte>)
    requires s != [] && s[0] < 0xE0 && FirstChar(s).Some?
    ensures FirstLength(s) <= |s| && Utf8Char(FirstChar(s).value) == s[..FirstLength(s)]
  {
    if s[0] >= 0x80 {
      Digits(s[0] as int - 0xC0, s[1] as int - 0x80);
    }
  }

  lemma ThreeByteCharIsStrict(s: seq<byte>)
    requires s != [] && 0xE0 <= s[0] < 0xF0 && FirstChar(s).Some?
    ensures FirstLength(s) <= |s| && Utf8Char(FirstChar(s).value) == s[..FirstLength(s)]
  {
    MoreDigits(0, s[0] as int - 0xE0, s[1] as int - 0x80, s[2] as int - 0x80);
    assert Utf8Char(FirstChar(s).value) == [s[0], s[1], s[2]];
  }

  lemma FourByteCharIsStrict(s: seq<byte>)
    requires s != [] && 0xF0 <= s[0] && FirstChar(s).Some?
    ensures FirstLength(s) <= |s| && Utf8Char(FirstChar(s).value) == s[..FirstLength(s)]
  {
    MoreDigits(s[0] as int - 0xF0, s[1] as int - 0x80, s[2] as int - 0x80, s[3] as int - 0x80);
    assert Utf8Char(FirstChar(s).value) == [s[0], s[1], s[2], s[3]];
  }

  lemma FirstCharIsStrict(s: seq<byte>)
    requires s != [] && FirstChar(s).Some?
    ensures FirstLength(s) <= |s| && Utf8Char(FirstChar(s).value) == s[..FirstLength(s)]
  {
    if s[0] < 0xE0 {
      ShortFirstCharIsStrict(s);
    } else if s[0] < 0xF0 {
      ThreeByteCharIsStrict(s);
    } else {
      FourByteCharIsStrict(s);
    }
  }

  /** Nothing is accepted but the encoding of what it decodes to. */
  lemma {:induction false} FromUtf8IsStrict(s: seq<byte>)
    requires FromUtf8(s).Some?
    ensures Utf8(FromUtf8(s).value) == s
  {
    if s != [] {
      var n := FirstLength(s);
      FirstCharIsStrict(s);
      FromUtf8IsStrict(s[n..]);
      var t := FromUtf8(s).value;
      assert t[0] == FirstChar(s).value && t[1..] == FromUtf8(s[n..]).value;
      assert s == s[..n] + s[n..];
    }
  }
}
