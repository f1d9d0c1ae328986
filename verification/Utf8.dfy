/** Bytes and the UTF-8 encoding of a string (section 3 of RFC 3629). */
module Utf8 {
  newtype Byte = b: int | 0 <= b < 256

  type Bytes = seq<Byte>

  function EncodeChar(c: char): (e: Bytes)
    ensures 1 <= |e| <= 4
    ensures !IsContinuation(e[0])
    ensures forall i | 1 <= i < |e| :: IsContinuation(e[i])
  {
    var n := c as int;
    if n < 0x80 then [n as Byte]
    else if n < 0x800 then [(0xC0 + n / 64) as Byte, (0x80 + n % 64) as Byte]
    else if n < 0x10000 then [(0xE0 + n / 4096) as Byte, (0x80 + n / 64 % 64) as Byte, (0x80 + n % 64) as Byte]
    else [(0xF0 + n / 262144) as Byte, (0x80 + n / 4096 % 64) as Byte, (0x80 + n / 64 % 64) as Byte,
          (0x80 + n % 64) as Byte]
  }

  function Encode(s: string): Bytes {
    if s == [] then [] else EncodeChar(s[0]) + Encode(s[1..])
  }

  predicate IsContinuation(b: Byte) {
    0x80 <= b < 0xC0
  }

  /** `str::is_char_boundary`. */
  predicate IsBoundary(bytes: Bytes, i: nat) {
    i == 0 || i == |bytes| || (i < |bytes| && !IsContinuation(bytes[i]))
  }

  lemma {:induction false} EncodeAppend(a: string, b: string)
    ensures Encode(a + b) == Encode(a) + Encode(b)
    decreases |a|
  {
    if a == [] {
      assert a + b == b;
    } else {
      assert (a + b)[1..] == a[1..] + b;
      EncodeAppend(a[1..], b);
    }
  }

  /** A boundary of an encoded string is the end of a whole-character prefix. */
  lemma {:induction false} BoundaryIsWholePrefix(s: string, i: nat) returns (k: nat)
    requires i <= |Encode(s)| && IsBoundary(Encode(s), i)
    ensures k <= |s|
    ensures Encode(s[..k]) == Encode(s)[..i]
    decreases |s|
  {
    if i == 0 {
      k := 0;
    } else {
      var first, rest := EncodeChar(s[0]), Encode(s[1..]);
      assert i >= |first|;
      var j := BoundaryIsWholePrefix(s[1..], i - |first|);
      k := j + 1;
      assert s[..k][1..] == s[1..][..j];
      assert (first + rest)[..i] == first + rest[..i - |first|];
    }
  }

  /** Every position has a boundary at most three bytes before it. */
  lemma {:induction false} BoundaryNearby(s: string, i: nat) returns (b: nat)
    requires i <= |Encode(s)|
    ensures b <= i <= b + 3 && IsBoundary(Encode(s), b)
    decreases |s|
  {
    if s == [] || i < |EncodeChar(s[0])| {
      b := 0;
    } else {
      var first, rest := EncodeChar(s[0]), Encode(s[1..]);
      var c := BoundaryNearby(s[1..], i - |first|);
      b := c + |first|;
      assert c < |rest| ==> (first + rest)[b] == rest[c];
      assert s[1..] != [] ==> rest[0] == EncodeChar(s[1])[0];
    }
  }
}
