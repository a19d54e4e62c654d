/** The wire form of a command: bincode's standard configuration (little endian, variable
    length integers) into a buffer of 64 bytes. */
module CommandCodec {
  import opened Text
  import opened Commands

  const BUFFER := 64

  // ---- variable length integers

  function Pow256(k: nat): (p: nat)
    ensures p > 0
  {
    if k == 0 then 1 else 256 * Pow256(k - 1)
  }

  /** `k` bytes, least significant first. */
  function LittleEndian(n: nat, k: nat): (s: seq<byte>)
    ensures |s| == k
  {
    if k == 0 then [] else [(n % 256) as byte] + LittleEndian(n / 256, k - 1)
  }

  function FromLittleEndian(s: seq<byte>): nat {
    if s == [] then 0 else s[0] as nat + 256 * FromLittleEndian(s[1..])
  }

  lemma {:induction false} LittleEndianRoundTrip(n: nat, k: nat)
    requires n < Pow256(k)
    ensures FromLittleEndian(LittleEndian(n, k)) == n
  {
    if k > 0 {
      LittleEndianRoundTrip(n / 256, k - 1);
      assert LittleEndian(n, k)[1..] == LittleEndian(n / 256, k - 1);
    }
  }

  const U16 := 251
  const U32 := 252
  const U64 := 253

  /** One byte below 251; otherwise a marker and 2, 4 or 8 bytes. */
  function Varint(n: nat): (s: seq<byte>)
    requires n < Pow256(8)
    ensures |s| == if n < 251 then 1 else if n < Pow256(2) then 3 else if n < Pow256(4) then 5 else 9
  {
    if n < 251 then [n as byte]
    else if n < Pow256(2) then [U16 as byte] + LittleEndian(n, 2)
    else if n < Pow256(4) then [U32 as byte] + LittleEndian(n, 4)
    else [U64 as byte] + LittleEndian(n, 8)
  }

  function ReadFixed(s: seq<byte>, k: nat): Option<(nat, seq<byte>)> {
    if |s| < k then None else Some((FromLittleEndian(s[..k]), s[k..]))
  }

  /** The number and the bytes after it. */
  function ReadVarint(s: seq<byte>): Option<(nat, seq<byte>)> {
    if s == [] then None
    else if s[0] < 251 then Some((s[0] as nat, s[1..]))
    else if s[0] == 251 then ReadFixed(s[1..], 2)
    else if s[0] == 252 then ReadFixed(s[1..], 4)
    else if s[0] == 253 then ReadFixed(s[1..], 8)
    else None
  }

  lemma ReadFixedRoundTrip(n: nat, k: nat, rest: seq<byte>)
    requires n < Pow256(k)
    ensures ReadFixed(LittleEndian(n, k) + rest, k) == Some((n, rest))
  {
    var s := LittleEndian(n, k) + rest;
    assert s[..k] == LittleEndian(n, k) && s[k..] == rest;
    LittleEndianRoundTrip(n, k);
  }

  lemma VarintRoundTrip(n: nat, rest: seq<byte>)
    requires n < Pow256(8)
    ensures ReadVarint(Varint(n) + rest) == Some((n, rest))
  {
    var s := Varint(n) + rest;
    var k := if n < Pow256(2) then 2 else if n < Pow256(4) then 4 else 8;
    if n < 251 {
      assert s[1..] == rest;
    } else {
      assert s[1..] == LittleEndian(n, k) + rest;
      ReadFixedRoundTrip(n, k, rest);
    }
  }

  // ---- commands

  /** The variant's index, then the length and the bytes of the user. */
  function Wire(c: Command): seq<byte>
    requires |Utf8(c.user)| < Pow256(8)
  {
    Varint(if c.PubJoin? then 0 else 1) + (Varint(|Utf8(c.user)|) + Utf8(c.user))
  }

  /** `encode_into_slice`: fails when the buffer is too short. */
  function Encode(c: Command): Option<seq<byte>> {
    if |Utf8(c.user)| < Pow256(8) && |Wire(c)| <= BUFFER then Some(Wire(c)) else None
  }

  /** `decode_from_slice`: a user must be valid UTF-8; bytes after the command are ignored. */
  function Decode(s: seq<byte>): Option<Command> {
    match ReadVarint(s)
    case None => None
    case Some((variant, rest)) =>
      if variant > 1 then None
      else
        match ReadVarint(rest)
        case None => None
        case Some((length, bytes)) =>
          if |bytes| < length then None
          else
            match FromUtf8(bytes[..length])
            case None => None
            case Some(user) => Some(if variant == 0 then PubJoin(user) else PubLeft(user))
  }

  lemma WireRoundTrip(c: Command, rest: seq<byte>)
    requires |Utf8(c.user)| < Pow256(8)
    ensures Decode(Wire(c) + rest) == Some(c)
  {
    var variant := if c.PubJoin? then 0 else 1;
    var user := Utf8(c.user);
    var body := Varint(|user|) + user + rest;
    assert Wire(c) + rest == Varint(variant) + body;
    VarintRoundTrip(variant, body);
    assert body == Varint(|user|) + (user + rest);
    VarintRoundTrip(|user|, user + rest);
    assert (user + rest)[..|user|] == user;
    Utf8RoundTrip(c.user);
  }

  /** A command is sent exactly for users of at most 62 bytes, and then decodes to itself. */
  lemma CommandRoundTrip(c: Command)
    ensures Encode(c).Some? <==> |Utf8(c.user)| <= 62
    ensures Encode(c).Some? ==> Decode(Encode(c).value) == Some(c)
  {
    assert Pow256(8) > 1000;
    if |Utf8(c.user)| < Pow256(8) {
      WireRoundTrip(c, []);
      assert Wire(c) + [] == Wire(c);
    }
  }

  /** What a command that fits looks like: 0 for a join and 1 for a departure, the length, and the bytes. */
  lemma WireBytes(c: Command)
    requires |Utf8(c.user)| <= 62
    ensures Encode(c) == Some([if c.PubJoin? then 0 else 1, |Utf8(c.user)| as byte] + Utf8(c.user))
  {
    var variant := if c.PubJoin? then 0 else 1;
    assert Pow256(8) > 1000;
    assert Varint(variant) == [variant as byte];
    assert Wire(c) == [variant as byte, |Utf8(c.user)| as byte] + Utf8(c.user);
  }

  /** Any other variant is rejected. */
  lemma UnknownVariantIsRejected(variant: byte, rest: seq<byte>)
    requires 1 < variant < 251
    ensures Decode([variant] + rest) == None
  {}

  /** A command that was cut off anywhere is rejected. */
  lemma TruncatedIsRejected(c: Command, k: nat)
    requires |Utf8(c.user)| <= 62 && k < |Wire(c)|
    ensures Decode(Wire(c)[..k]) == None
  {
    var variant := if c.PubJoin? then 0 else 1;
    var w := Wire(c);
    assert w == [variant as byte, |Utf8(c.user)| as byte] + Utf8(c.user);
    if k > 0 {
      assert w[..k][0] == variant as byte;
      if k > 1 {
        assert w[..k][1..][0] == |Utf8(c.user)| as byte;
        assert |w[..k][1..][1..]| == k - 2;
      }
    }
  }
}
