/** Byte strings, counted as PHP and the core have them, and NUL-terminated: what strdup, strlen
    and %s see of a counted string. */
module CStrings {

  newtype byte = x: int | 0 <= x < 256

  type Bytes = seq<byte>

  const NUL: byte := 0
  const NEWLINE: byte := 10

  /** The part of `s` before its first NUL. */
  function CutNul(s: Bytes): (r: Bytes)
    ensures NUL !in r && r <= s
    ensures NUL !in s ==> r == s
    ensures NUL in s ==> |r| < |s| && s[|r|] == NUL
  {
    if s == [] || s[0] == NUL then [] else [s[0]] + CutNul(s[1..])
  }

  /** Cutting a string cannot bring in a byte it did not have. */
  lemma {:induction false} CutKeepsOut(s: Bytes, b: byte)
    requires b !in s
    ensures b !in CutNul(s)
  {
    var r := CutNul(s);
    forall i | 0 <= i < |r| ensures r[i] != b {
      assert r[i] == s[i];
    }
  }

  /** Where a scan for the terminator stops is where the string is cut. */
  lemma {:induction false} UpToNul(s: Bytes, n: nat)
    requires n <= |s| && NUL !in s[..n] && (n < |s| ==> s[n] == NUL)
    ensures CutNul(s) == s[..n]
  {
    if n > 0 {
      assert s[1..][..n - 1] == s[..n][1..];
      UpToNul(s[1..], n - 1);
      assert s[..n] == [s[0]] + s[..n][1..];
    }
  }
}
