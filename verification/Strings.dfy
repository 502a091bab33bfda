/** Python's notion of whitespace. */
module Strings {

  /** `str.isspace`, which `strip` and `split` go by. */
  predicate IsSpace(c: char) {
    var n := c as int;
    || 0x09 <= n <= 0x0D || 0x1C <= n <= 0x20 || n == 0x85 || n == 0xA0 || n == 0x1680
    || 0x2000 <= n <= 0x200A || n == 0x2028 || n == 0x2029 || n == 0x202F || n == 0x205F || n == 0x3000
  }

  function TrimLeft(s: string): (r: string)
    ensures |r| <= |s| && forall c :: c in r ==> c in s
  {
    if s != "" && IsSpace(s[0]) then TrimLeft(s[1..]) else s
  }

  function TrimRight(s: string): (r: string)
    ensures |r| <= |s| && forall c :: c in r ==> c in s
  {
    if s != "" && IsSpace(s[|s| - 1]) then TrimRight(s[..|s| - 1]) else s
  }

  function Trim(s: string): string { TrimRight(TrimLeft(s)) }

  predicate Blank(s: string) { Trim(s) == "" }

  predicate AllSpace(s: string) { forall i :: 0 <= i < |s| ==> IsSpace(s[i]) }

  lemma {:induction false} LeftTrimmed(s: string)
    ensures var n := |s| - |TrimLeft(s)|; AllSpace(s[..n]) && s[n..] == TrimLeft(s)
    ensures TrimLeft(s) != "" ==> !IsSpace(TrimLeft(s)[0])
  {
    hide IsSpace;
    if s != "" && IsSpace(s[0]) {
      LeftTrimmed(s[1..]);
      var n := |s| - |TrimLeft(s)|;
      assert s[1..][n - 1..] == s[n..];
      forall i | 0 <= i < n ensures IsSpace(s[i]) {
        if i > 0 { assert s[1..][..n - 1][i - 1] == s[i]; }
      }
    }
  }

  lemma {:induction false} RightTrimmed(s: string)
    ensures var n := |TrimRight(s)|; s[..n] == TrimRight(s) && AllSpace(s[n..])
    ensures TrimRight(s) != "" ==> !IsSpace(TrimRight(s)[|TrimRight(s)| - 1])
  {
    hide IsSpace;
    if s != "" && IsSpace(s[|s| - 1]) {
      var m := |s| - 1;
      RightTrimmed(s[..m]);
      var n := |TrimRight(s)|;
      assert s[..m][..n] == s[..n];
      forall i | 0 <= i < |s| - n ensures IsSpace(s[n..][i]) {
        if n + i < m { assert s[..m][n..][i] == s[n..][i]; }
      }
    }
  }

  /** The part from `i` to `j`, with nothing but whitespace around it. */
  predicate Core(s: string, r: string, i: int, j: int) {
    0 <= i <= j <= |s| && r == s[i..j] && AllSpace(s[..i]) && AllSpace(s[j..])
  }

  /** `strip` takes whitespace off both ends, all of it, and nothing else. */
  lemma {:induction false} TrimMeans(s: string)
    ensures exists i, j :: Core(s, Trim(s), i, j)
    ensures Trim(s) != "" ==> !IsSpace(Trim(s)[0]) && !IsSpace(Trim(s)[|Trim(s)| - 1])
  {
    hide IsSpace, AllSpace, TrimLeft, TrimRight;
    var t := TrimLeft(s);
    var (i, n) := (|s| - |t|, |TrimRight(t)|);
    LeftTrimmed(s);
    RightTrimmed(t);
    assert s[i..][..n] == s[i..i + n] && s[i..][n..] == s[i + n..];
    assert Core(s, Trim(s), i, i + n);
  }
}
