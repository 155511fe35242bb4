/** ECMAScript's String.prototype.trim, as the recipe form uses it on the
    ingredient and step inputs: strip the leading and trailing code points that
    are WhiteSpace (section 12.2 of ECMA-262) or LineTerminator (section 12.3). */
module Text {

  /** WhiteSpace: TAB, VT, FF, SPACE, NBSP, ZWNBSP and every Unicode "Zs" code point. */
  predicate IsWhiteSpace(c: char) {
    var n := c as int;
    n == 0x09 || n == 0x0B || n == 0x0C || n == 0x20 || n == 0xA0 || n == 0xFEFF ||
    n == 0x1680 || (0x2000 <= n <= 0x200A) || n == 0x202F || n == 0x205F || n == 0x3000
  }

  /** LineTerminator: LF, CR, LINE SEPARATOR, PARAGRAPH SEPARATOR. */
  predicate IsLineTerminator(c: char) {
    var n := c as int;
    n == 0x0A || n == 0x0D || n == 0x2028 || n == 0x2029
  }

  /** The code points trim removes from either end. */
  predicate IsTrimmable(c: char) {
    IsWhiteSpace(c) || IsLineTerminator(c)
  }

  predicate AllTrimmable(s: string) {
    forall k :: 0 <= k < |s| ==> IsTrimmable(s[k])
  }

  /** Number of trimmable code points at the start of `s`. */
  function LeadingCount(s: string): (n: nat)
    ensures n <= |s|
    ensures forall k :: 0 <= k < n ==> IsTrimmable(s[k])
    ensures n < |s| ==> !IsTrimmable(s[n])
  {
    if s == [] || !IsTrimmable(s[0]) then 0 else 1 + LeadingCount(s[1..])
  }

  /** Number of trimmable code points at the end of `s`. */
  function TrailingCount(s: string): (n: nat)
    ensures n <= |s|
    ensures forall k :: |s| - n <= k < |s| ==> IsTrimmable(s[k])
    ensures n < |s| ==> !IsTrimmable(s[|s| - 1 - n])
  {
    if s == [] || !IsTrimmable(s[|s| - 1]) then 0 else 1 + TrailingCount(s[..|s| - 1])
  }

  /** `r` is what is left of `s` once a trimmable prefix and a trimmable suffix
      are removed, and `r` itself neither starts nor ends with a trimmable code point. */
  ghost predicate IsTrimOf(s: string, r: string) {
    (r == [] || (!IsTrimmable(r[0]) && !IsTrimmable(r[|r| - 1]))) &&
    exists p, q :: s == p + r + q && AllTrimmable(p) && AllTrimmable(q)
  }

  /** Cutting a trimmable prefix and suffix off `s`, where the middle part neither
      starts nor ends with a trimmable code point, is a trim of `s`. */
  lemma SliceIsTrimOf(s: string, i: nat, j: nat)
    requires i < j <= |s|
    requires forall k :: 0 <= k < i ==> IsTrimmable(s[k])
    requires forall k :: j <= k < |s| ==> IsTrimmable(s[k])
    requires !IsTrimmable(s[i]) && !IsTrimmable(s[j - 1])
    ensures IsTrimOf(s, s[i..j])
  {
    var p, r, q := s[..i], s[i..j], s[j..];
    assert s == p + r + q;
    assert AllTrimmable(p) && AllTrimmable(q);
  }

  /** String.prototype.trim. */
  function Trim(s: string): (r: string)
    ensures |r| <= |s|
    ensures r == [] <==> AllTrimmable(s)
    ensures r != [] ==> !IsTrimmable(r[0]) && !IsTrimmable(r[|r| - 1])
  {
    var lead := LeadingCount(s);
    if lead == |s| then
      assert AllTrimmable(s);
      []
    else
      s[lead..|s| - TrailingCount(s)]
  }

  /** What trim returns meets the characterisation IsTrimOf. */
  lemma TrimIsTrimOf(s: string)
    ensures IsTrimOf(s, Trim(s))
  {
    var lead := LeadingCount(s);
    if lead == |s| {
      assert s == s + [] + [] && AllTrimmable(s) && AllTrimmable([]);
    } else {
      SliceIsTrimOf(s, lead, |s| - TrailingCount(s));
    }
  }

  /** When s[i..j] neither starts nor ends with a trimmable code point and
      everything outside it is trimmable, the two counts are exactly i and |s| - j. */
  lemma CountsOfSlice(s: string, i: nat, j: nat)
    requires i < j <= |s|
    requires forall k :: 0 <= k < i ==> IsTrimmable(s[k])
    requires forall k :: j <= k < |s| ==> IsTrimmable(s[k])
    requires !IsTrimmable(s[i]) && !IsTrimmable(s[j - 1])
    ensures LeadingCount(s) == i && TrailingCount(s) == |s| - j
  {
  }

  /** Trim is the only decomposition IsTrimOf allows: it is fully determined by
      the characterisation above. */
  lemma TrimUnique(s: string, r: string)
    requires IsTrimOf(s, r)
    ensures r == Trim(s)
  {
    var p, q :| s == p + r + q && AllTrimmable(p) && AllTrimmable(q);
    var i, j := |p|, |p| + |r|;
    forall k | 0 <= k < i ensures IsTrimmable(s[k]) {
      assert s[k] == p[k];
    }
    forall k | j <= k < |s| ensures IsTrimmable(s[k]) {
      assert s[k] == q[k - j];
    }
    if r == [] {
      assert AllTrimmable(s);
    } else {
      assert s[i] == r[0] && s[j - 1] == r[|r| - 1];
      CountsOfSlice(s, i, j);
      assert r == s[i..j];
    }
  }

  /** Trimming twice is trimming once. */
  lemma TrimIdempotent(s: string)
    ensures Trim(Trim(s)) == Trim(s)
  {
    var r := Trim(s);
    assert r == [] + r + [];
    assert AllTrimmable([]);
    TrimUnique(r, r);
  }
}
