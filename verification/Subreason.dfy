/** The bounded copy of an invalid-request message that an analytics error carries. */
module Subreason {
  import opened Utf8

  const MAX_BYTES := 512
  const SUFFIX := "..."

  /** `str::floor_char_boundary`: the last boundary that is not past the index. */
  function FloorCharBoundary(bytes: Bytes, index: nat): (n: nat)
    ensures n <= index && n <= |bytes| && IsBoundary(bytes, n)
    ensures forall b: nat | b <= index && b <= |bytes| && IsBoundary(bytes, b) :: b <= n
  {
    if index >= |bytes| then |bytes|
    else if IsBoundary(bytes, index) then index
    else FloorCharBoundary(bytes, index - 1)
  }

  /** The subreason of an invalid request with this message; other errors carry none. */
  function Bounded(message: Bytes): Bytes {
    if |message| <= MAX_BYTES then message
    else message[..FloorCharBoundary(message, MAX_BYTES - |SUFFIX|)] + Encode(SUFFIX)
  }

  /** For every message the subreason is valid UTF-8 of at most 512 bytes: the message itself when it
      fits, and otherwise the longest whole-character prefix of at most 509 bytes, which has at least
      506, followed by the suffix. */
  lemma SubreasonIsBoundedText(message: string) returns (kept: nat)
    ensures kept <= |message|
    ensures |Bounded(Encode(message))| <= MAX_BYTES
    ensures |Encode(message)| <= MAX_BYTES ==> kept == |message| && Bounded(Encode(message)) == Encode(message)
    ensures |Encode(message)| > MAX_BYTES ==>
              && Bounded(Encode(message)) == Encode(message[..kept] + SUFFIX)
              && 506 <= |Encode(message[..kept])| <= 509
              && (forall k | kept < k <= |message| :: |Encode(message[..k])| > 509)
  {
    var bytes := Encode(message);
    assert |Encode(SUFFIX)| == 3 by {
      assert SUFFIX[1..] == ".." && ".."[1..] == "." && "."[1..] == "";
    }
    if |bytes| <= MAX_BYTES {
      kept := |message|;
    } else {
      var cut := FloorCharBoundary(bytes, 509);
      var near := BoundaryNearby(message, 509);
      kept := BoundaryIsWholePrefix(message, cut);
      EncodeAppend(message[..kept], SUFFIX);
      forall k | kept < k <= |message| ensures |Encode(message[..k])| > 509 {
        PrefixEndIsBoundary(message, k);
        PrefixGrows(message, kept, k);
      }
    }
  }

  lemma PrefixEndIsBoundary(s: string, k: nat)
    requires k <= |s|
    ensures |Encode(s[..k])| <= |Encode(s)| && IsBoundary(Encode(s), |Encode(s[..k])|)
  {
    assert s == s[..k] + s[k..];
    EncodeAppend(s[..k], s[k..]);
    assert k < |s| ==> Encode(s[k..])[0] == EncodeChar(s[k..][0])[0];
  }

  lemma PrefixGrows(s: string, a: nat, b: nat)
    requires a < b <= |s|
    ensures |Encode(s[..a])| < |Encode(s[..b])|
  {
    assert s[..b] == s[..a] + s[a..b];
    EncodeAppend(s[..a], s[a..b]);
  }
}
