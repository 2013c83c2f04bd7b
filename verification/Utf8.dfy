/** UTF-8 (RFC 3629) of a text, and that no two texts share their bytes. */
module Utf8 {

  type Byte = x: int | 0 <= x < 256

  function EncodeChar(c: char): (bytes: seq<Byte>)
    ensures 1 <= |bytes| <= 4
  {
    var n := c as int;
    if n < 0x80 then [n]
    else if n < 0x800 then [0xC0 + n / 64, 0x80 + n % 64]
    else if n < 0x10000 then [0xE0 + n / 4096, 0x80 + n / 64 % 64, 0x80 + n % 64]
    else [0xF0 + n / 262144, 0x80 + n / 4096 % 64, 0x80 + n / 64 % 64, 0x80 + n % 64]
  }

  function Encode(s: string): seq<Byte> {
    if s == "" then [] else EncodeChar(s[0]) + Encode(s[1..])
  }

  /** How many bytes the code that starts with byte `b` has. */
  function Width(b: Byte): nat {
    if b < 0xC0 then 1 else if b < 0xE0 then 2 else if b < 0xF0 then 3 else 4
  }

  lemma WidthFits(c: char)
    ensures |EncodeChar(c)| == Width(EncodeChar(c)[0])
  {
  }

  /** The code point that a code of any width stands for. */
  function Value(b: seq<Byte>): int
    requires 1 <= |b| <= 4
  {
    if |b| == 1 then b[0]
    else if |b| == 2 then 64 * (b[0] as int - 0xC0) + Tail(b[1])
    else if |b| == 3 then 64 * (64 * (b[0] as int - 0xE0) + Tail(b[1])) + Tail(b[2])
    else 64 * (64 * (64 * (b[0] as int - 0xF0) + Tail(b[1])) + Tail(b[2])) + Tail(b[3])
  }

  function Tail(b: Byte): int {
    b as int - 0x80
  }

  lemma Quotients(n: nat)
    ensures n / 4096 == n / 64 / 64 && n / 262144 == n / 4096 / 64
  {
  }

  lemma ValueOfCode(c: char)
    ensures Value(EncodeChar(c)) == c as int
  {
    var n := c as int;
    Quotients(n);
    var x, y := n / 64, n / 4096;
    assert n == 64 * x + n % 64 && x == 64 * y + x % 64 && y == 64 * (y / 64) + y % 64;
  }

  /** The four forms of section 3 of RFC 3629. */
  lemma CodeIs(c: char)
    ensures var n, b := c as int, EncodeChar(c);
      if n < 128 then b == [n]
      else if n < 2048 then |b| == 2 && (b[0] as int - 192) * 64 + (b[1] as int - 128) == n && 192 <= b[0] < 224
      else if n < 65536 then |b| == 3 && (b[0] as int - 224) * 4096 + (b[1] as int - 128) * 64 + (b[2] as int - 128) == n && 224 <= b[0] < 240
      else |b| == 4 && (b[0] as int - 240) * 262144 + (b[1] as int - 128) * 4096 + (b[2] as int - 128) * 64 + (b[3] as int - 128) == n && 240 <= b[0] < 248
    ensures forall i :: 1 <= i < |EncodeChar(c)| ==> 128 <= EncodeChar(c)[i] < 192
  {
    ValueOfCode(c);
  }

  /** The code is prefix free. */
  lemma CodesSplit(c: char, d: char, x: seq<Byte>, y: seq<Byte>)
    requires EncodeChar(c) + x == EncodeChar(d) + y
    ensures c == d && x == y
  {
    var whole := EncodeChar(c) + x;
    WidthFits(c);
    WidthFits(d);
    assert whole[0] == EncodeChar(c)[0] && whole[0] == EncodeChar(d)[0];
    var n := |EncodeChar(c)|;
    assert whole[..n] == EncodeChar(c) && whole[n..] == x;
    assert whole[..n] == EncodeChar(d) && whole[n..] == y;
    ValueOfCode(c);
    ValueOfCode(d);
  }

  lemma {:induction false} EncodeInjective(s: string, t: string)
    requires Encode(s) == Encode(t)
    ensures s == t
  {
    if s != "" && t != "" {
      CodesSplit(s[0], t[0], Encode(s[1..]), Encode(t[1..]));
      EncodeInjective(s[1..], t[1..]);
      assert s == [s[0]] + s[1..] && t == [t[0]] + t[1..];
    }
  }
}
