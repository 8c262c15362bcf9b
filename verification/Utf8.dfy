/** Text as UTF-8 bytes (RFC 3629): what a JSON text becomes before it is written to a connection. */
module Utf8 {
  import opened Options
  import opened Streams

  function EncodeChar(c: char): (bs: seq<byte>)
    ensures 0 < |bs| <= 4
  {
    var n := c as int;
    if n < 0x80 then [n as byte]
    else if n < 0x800 then [(0xC0 + n / 64) as byte, Cont(n)]
    else if n < 0x10000 then [(0xE0 + n / 4096) as byte, Cont(n / 64), Cont(n)]
    else [(0xF0 + n / 262144) as byte, Cont(n / 4096), Cont(n / 64), Cont(n)]
  }

  /** A continuation byte with the six low bits of n. */
  function Cont(n: nat): byte {
    (0x80 + n % 64) as byte
  }

  function Encode(s: string): seq<byte> {
    if s == "" then [] else EncodeChar(s[0]) + Encode(s[1..])
  }

  /** How many bytes the character has that begins with b; 0 for a byte that begins none. */
  function Width(b: byte): nat {
    if b < 0x80 then 1 else if b < 0xC0 then 0 else if b < 0xE0 then 2
    else if b < 0xF0 then 3 else if b < 0xF8 then 4 else 0
  }

  function CodePoint(bs: seq<byte>): int
    requires 0 < |bs| <= 4
  {
    if |bs| == 1 then bs[0] as int
    else if |bs| == 2 then (bs[0] as int - 0xC0) * 64 + (bs[1] as int - 0x80)
    else if |bs| == 3 then (bs[0] as int - 0xE0) * 4096 + (bs[1] as int - 0x80) * 64 + (bs[2] as int - 0x80)
    else (bs[0] as int - 0xF0) * 262144 + (bs[1] as int - 0x80) * 4096 + (bs[2] as int - 0x80) * 64
         + (bs[3] as int - 0x80)
  }

  /** The first character and its width; only the one encoding a character has is accepted. */
  function DecodeChar(bs: seq<byte>): (r: Option<char>)
    requires |bs| > 0
    ensures r.Some? ==> 0 < Width(bs[0]) <= |bs| && EncodeChar(r.value) == bs[..Width(bs[0])]
  {
    var w := Width(bs[0]);
    if w == 0 || w > |bs| then None else
      var n := CodePoint(bs[..w]);
      if (0 <= n < 0xD800 || 0xE000 <= n < 0x110000) && EncodeChar(n as char) == bs[..w] then Some(n as char)
      else None
  }

  function Decode(bs: seq<byte>): Option<string> {
    if bs == [] then Some("") else
      match DecodeChar(bs)
      case None => None
      case Some(c) =>
        match Decode(bs[Width(bs[0])..])
        case None => None
        case Some(s) => Some([c] + s)
  }

  lemma Digits64(n: nat)
    ensures n == 64 * (n / 64) + n % 64
    ensures n == 4096 * (n / 4096) + 64 * ((n / 64) % 64) + n % 64
    ensures n == 262144 * (n / 262144) + 4096 * ((n / 4096) % 64) + 64 * ((n / 64) % 64) + n % 64
  {
    var a := n / 64;
    var b := a / 64;
    assert b == n / 4096 && b / 64 == n / 262144;
  }

  lemma CodePointOf(c: char)
    ensures var bs := EncodeChar(c); Width(bs[0]) == |bs| && CodePoint(bs) == c as int
  {
    Digits64(c as int);
    var bs := EncodeChar(c);
    if |bs| == 1 {
    } else if |bs| == 2 {
    } else if |bs| == 3 {
    } else {
    }
  }

  lemma PlainCharIff(c: char)
    ensures Plain(EncodeChar(c)) <==> c != '\n'
  {
    if c as int < 0x80 {
      assert EncodeChar(c)[0] == NL <==> c == '\n';
    } else {
      assert forall i | 0 <= i < |EncodeChar(c)| :: EncodeChar(c)[i] >= 0x80;
    }
  }

  lemma {:induction false} RoundTrip(s: string)
    ensures Decode(Encode(s)) == Some(s)
  {
    if s != "" {
      var e, rest := EncodeChar(s[0]), Encode(s[1..]);
      CodePointOf(s[0]);
      assert (e + rest)[..|e|] == e && (e + rest)[|e|..] == rest;
      RoundTrip(s[1..]);
      assert s == [s[0]] + s[1..];
    }
  }

  /** Only the newline character has a delimiter byte in its encoding. */
  lemma {:induction false} PlainIff(s: string)
    ensures Plain(Encode(s)) <==> forall i | 0 <= i < |s| :: s[i] != '\n'
  {
    if s != "" {
      PlainIff(s[1..]);
      var e, rest := EncodeChar(s[0]), Encode(s[1..]);
      PlainCharIff(s[0]);
      assert forall i | 1 <= i < |s| :: s[i] == s[1..][i - 1];
      PlainConcat(e, rest);
    }
  }

  lemma PlainConcat(a: seq<byte>, b: seq<byte>)
    ensures Plain(a + b) <==> Plain(a) && Plain(b)
  {
    assert forall i | 0 <= i < |a| :: (a + b)[i] == a[i];
    assert forall i | 0 <= i < |b| :: (a + b)[|a| + i] == b[i];
  }

  lemma {:induction false} EncodeConcat(s: string, t: string)
    ensures Encode(s + t) == Encode(s) + Encode(t)
  {
    hide EncodeChar;
    if s == "" {
      assert s + t == t;
    } else {
      EncodeConcat(s[1..], t);
      assert (s + t)[1..] == s[1..] + t;
      ConcatAssoc(EncodeChar(s[0]), Encode(s[1..]), Encode(t));
    }
  }
}
