/** Lower-case hexadecimal text of bytes, and its decoding. */
module Hex {
  import opened Common

  const DIGITS: string := "0123456789abcdef"

  function Digit(n: int): (c: char)
    requires 0 <= n < 16
  {
    DIGITS[n]
  }

  /** Decoding accepts both cases. */
  function Nibble(c: char): (n: Option<int>)
    ensures n.Some? ==> 0 <= n.value < 16
  {
    if '0' <= c <= '9' then Some(c as int - '0' as int)
    else if 'a' <= c <= 'f' then Some(c as int - 'a' as int + 10)
    else if 'A' <= c <= 'F' then Some(c as int - 'A' as int + 10)
    else None
  }

  lemma NibbleOfDigit(n: int)
    requires 0 <= n < 16
    ensures Nibble(Digit(n)) == Some(n)
  {
    if n < 10 {
      assert Digit(n) == ['0', '1', '2', '3', '4', '5', '6', '7', '8', '9'][n];
    } else {
      assert Digit(n) == ['a', 'b', 'c', 'd', 'e', 'f'][n - 10];
    }
  }

  function ToHex(bs: Bytes): (s: string)
    ensures |s| == 2 * |bs|
  {
    if bs == [] then "" else [Digit(bs[0] as int / 16), Digit(bs[0] as int % 16)] + ToHex(bs[1..])
  }

  function FromHex(s: string): (r: Option<Bytes>) {
    if s == "" then Some([])
    else if |s| == 1 then None
    else
      var hi, lo, rest := Nibble(s[0]), Nibble(s[1]), FromHex(s[2..]);
      if hi.Some? && lo.Some? && rest.Some? then Some([(16 * hi.value + lo.value) as Byte] + rest.value) else None
  }

  lemma ByteRoundTrip(b: Byte)
    ensures Nibble(Digit(b as int / 16)) == Some(b as int / 16) && Nibble(Digit(b as int % 16)) == Some(b as int % 16)
    ensures (16 * (b as int / 16) + b as int % 16) as Byte == b
  {
    NibbleOfDigit(b as int / 16);
    NibbleOfDigit(b as int % 16);
  }

  lemma DecodePair(c: char, d: char, rest: string)
    requires Nibble(c).Some? && Nibble(d).Some? && FromHex(rest).Some?
    ensures FromHex([c, d] + rest) == Some([(16 * Nibble(c).value + Nibble(d).value) as Byte] + FromHex(rest).value)
  {
    var s := [c, d] + rest;
    assert s[0] == c && s[1] == d && s[2..] == rest;
  }

  /** Decoding undoes encoding. */
  lemma {:induction false} HexRoundTrip(bs: Bytes)
    ensures FromHex(ToHex(bs)) == Some(bs)
  {
    if bs != [] {
      ByteRoundTrip(bs[0]);
      HexRoundTrip(bs[1..]);
      DecodePair(Digit(bs[0] as int / 16), Digit(bs[0] as int % 16), ToHex(bs[1..]));
      assert [bs[0]] + bs[1..] == bs;
    }
  }

  lemma HexInjective(a: Bytes, b: Bytes)
    requires ToHex(a) == ToHex(b)
    ensures a == b
  {
    HexRoundTrip(a);
    HexRoundTrip(b);
  }

  lemma {:induction false} HexConcat(a: Bytes, b: Bytes)
    ensures ToHex(a + b) == ToHex(a) + ToHex(b)
  {
    if a == [] {
      assert a + b == b;
    } else {
      assert (a + b)[1..] == a[1..] + b;
      HexConcat(a[1..], b);
    }
  }

  /** Texts extend each other exactly when the bytes do. */
  lemma HexPrefix(a: Bytes, b: Bytes)
    ensures ToHex(a) <= ToHex(b) <==> a <= b
  {
    if a <= b {
      assert b == a + b[|a|..];
      HexConcat(a, b[|a|..]);
    }
    if ToHex(a) <= ToHex(b) {
      var front := b[..|a|];
      assert b == front + b[|a|..];
      HexConcat(front, b[|a|..]);
      assert ToHex(front) == ToHex(b)[..2 * |a|];
      HexInjective(a, front);
    }
  }
}
