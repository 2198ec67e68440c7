/** JavaScript string trimming, as `String.prototype.trim` performs it.

    `trim` removes, from both ends of a string, every code point that
    ECMAScript classifies as WhiteSpace or LineTerminator. All of them lie in
    the Basic Multilingual Plane, so working on Unicode scalar values (Dafny's
    `char`) gives the same result as working on UTF-16 code units.

    The functions carry only a length bound, so that code calling them does
    not pay for quantified facts it does not use; what they compute is
    stated by the lemmas that follow them.
 */
module Text {

  /** True for the code points `trim` strips: TAB, LF, VT, FF, CR, SPACE,
      NO-BREAK SPACE, the other Unicode space separators, LINE SEPARATOR,
      PARAGRAPH SEPARATOR and ZERO WIDTH NO-BREAK SPACE (the byte-order mark). */
  predicate IsTrimmable(c: char) {
    var n := c as int;
    (0x09 <= n <= 0x0D) || n == 0x20 || n == 0xA0 || n == 0x1680 ||
    (0x2000 <= n <= 0x200A) || n == 0x2028 || n == 0x2029 || n == 0x202F ||
    n == 0x205F || n == 0x3000 || n == 0xFEFF
  }

  /** Every character of `s` is one that `trim` strips (true of ""). */
  predicate AllTrimmable(s: string) {
    forall i :: 0 <= i < |s| ==> IsTrimmable(s[i])
  }

  /** `s` with its leading trimmable characters dropped. */
  function TrimStart(s: string): (r: string)
    ensures |r| <= |s|
  {
    if |s| > 0 && IsTrimmable(s[0]) then TrimStart(s[1..]) else s
  }

  /** `s` with its trailing trimmable characters dropped. */
  function TrimEnd(s: string): (r: string)
    ensures |r| <= |s|
  {
    if |s| > 0 && IsTrimmable(s[|s| - 1]) then TrimEnd(s[..|s| - 1]) else s
  }

  /** `s.trim()`. It never lengthens its input. */
  function Trim(s: string): (r: string)
    ensures |r| <= |s|
  {
    TrimEnd(TrimStart(s))
  }

  /** `TrimStart` keeps the suffix of `s` that begins at its first
      non-trimmable character, and drops only trimmable ones. */
  lemma {:induction false} TrimStartSpec(s: string)
    ensures var r := TrimStart(s);
      |r| <= |s| && r == s[|s| - |r|..] &&
      (r == [] || !IsTrimmable(r[0])) &&
      forall i :: 0 <= i < |s| - |r| ==> IsTrimmable(s[i])
    decreases |s|
  {
    if |s| > 0 && IsTrimmable(s[0]) {
      var t := s[1..];
      TrimStartSpec(t);
      var r := TrimStart(t);
      assert t[|t| - |r|..] == s[|s| - |r|..];
      forall i | 1 <= i < |s| - |r| ensures IsTrimmable(s[i]) {
        assert s[i] == t[i - 1];
      }
    }
  }

  /** `TrimEnd` keeps the prefix of `s` that ends at its last non-trimmable
      character, and drops only trimmable ones. */
  lemma {:induction false} TrimEndSpec(s: string)
    ensures var r := TrimEnd(s);
      |r| <= |s| && r == s[..|r|] &&
      (r == [] || !IsTrimmable(r[|r| - 1])) &&
      forall i :: |r| <= i < |s| ==> IsTrimmable(s[i])
    decreases |s|
  {
    if |s| > 0 && IsTrimmable(s[|s| - 1]) {
      var p := s[..|s| - 1];
      TrimEndSpec(p);
      var r := TrimEnd(p);
      assert p[..|r|] == s[..|r|];
      forall i | |r| <= i < |s| - 1 ensures IsTrimmable(s[i]) {
        assert s[i] == p[i];
      }
    }
  }

  /** `trim` returns the infix of `s` between its leading and its trailing
      trimmable characters: everything it drops is trimmable, and the result
      neither starts nor ends with a trimmable character. */
  lemma TrimSpec(s: string)
    ensures var r := Trim(s); var k := |s| - |TrimStart(s)|;
      0 <= k && k + |r| <= |s| && r == s[k..k + |r|] &&
      (r == [] || (!IsTrimmable(r[0]) && !IsTrimmable(r[|r| - 1]))) &&
      (forall i :: 0 <= i < k ==> IsTrimmable(s[i])) &&
      (forall i :: k + |r| <= i < |s| ==> IsTrimmable(s[i]))
  {
    var t := TrimStart(s);
    TrimStartSpec(s);
    TrimEndSpec(t);
    var r := Trim(s);
    var k := |s| - |t|;
    if r != [] {
      assert r[0] == t[0];
    }
    forall i | k + |r| <= i < |s| ensures IsTrimmable(s[i]) {
      assert s[i] == t[i - k];
    }
  }

  /** `trim` yields the empty string exactly when the input consists of
      trimmable characters only: the test `!name.trim()` rejects a blank
      name, and only a blank one. */
  lemma TrimEmptyIff(s: string)
    ensures Trim(s) == [] <==> AllTrimmable(s)
  {
    var t := TrimStart(s);
    TrimStartSpec(s);
    TrimEndSpec(t);
    if Trim(s) == [] {
      assert t == [];
    }
  }

  /** Trimming twice is trimming once. */
  lemma TrimIdempotent(s: string)
    ensures Trim(Trim(s)) == Trim(s)
  {
    TrimSpec(s);
    var r := Trim(s);
    if r != [] {
      assert TrimStart(r) == r;
      assert TrimEnd(r) == r;
    }
  }
}
