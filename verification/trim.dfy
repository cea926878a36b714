/** Whitespace trimming as `String.prototype.trim` performs it: the TrimString
    operation of ECMA-262 (section 22.1.3.32.1) removes, from both ends, every
    code point that is WhiteSpace (section 12.2) or LineTerminator (section 12.3). */
module Strings {

  /** WhiteSpace or LineTerminator in the sense of ECMA-262: TAB, VT, FF,
      SP, NBSP, ZWNBSP, the other space separators of Unicode category Zs,
      LF, CR, LS and PS. */
  const WhiteSpaceChars: set<char> := {
    '\U{0009}', '\U{000A}', '\U{000B}', '\U{000C}', '\U{000D}', '\U{0020}', '\U{00A0}', '\U{1680}',
    '\U{2000}', '\U{2001}', '\U{2002}', '\U{2003}', '\U{2004}', '\U{2005}', '\U{2006}', '\U{2007}',
    '\U{2008}', '\U{2009}', '\U{200A}', '\U{2028}', '\U{2029}', '\U{202F}', '\U{205F}', '\U{3000}',
    '\U{FEFF}'
  }

  predicate IsWhiteSpace(c: char) {
    c in WhiteSpaceChars
  }

  predicate AllWhiteSpace(s: string) {
    forall m :: 0 <= m < |s| ==> IsWhiteSpace(s[m])
  }

  /** Every character of `s` at a position in [lo, hi) is whitespace. */
  predicate WhiteSpaceBetween(s: string, lo: nat, hi: nat)
    requires lo <= hi <= |s|
  {
    forall m :: lo <= m < hi ==> IsWhiteSpace(s[m])
  }

  /** Neither end of `s` is whitespace (the empty string qualifies). */
  predicate IsTrimmed(s: string) {
    s == [] || (!IsWhiteSpace(s[0]) && !IsWhiteSpace(s[|s| - 1]))
  }

  /** The first position at or after `i` that is not whitespace, or |s|. */
  function SkipForward(s: string, i: nat): (k: nat)
    requires i <= |s|
    ensures i <= k <= |s| && WhiteSpaceBetween(s, i, k)
    ensures k == |s| || !IsWhiteSpace(s[k])
    decreases |s| - i
  {
    if i == |s| || !IsWhiteSpace(s[i]) then i else SkipForward(s, i + 1)
  }

  /** Scanning back from `j` and stopping at `lo`: the end of the last
      non-whitespace character, or `lo` if there is none. */
  function SkipBackward(s: string, lo: nat, j: nat): (k: nat)
    requires lo <= j <= |s|
    ensures lo <= k <= j && WhiteSpaceBetween(s, k, j)
    ensures k == lo || !IsWhiteSpace(s[k - 1])
    decreases j - lo
  {
    if j == lo || !IsWhiteSpace(s[j - 1]) then j else SkipBackward(s, lo, j - 1)
  }

  /** The number of whitespace characters `s` starts with. */
  function LeadLength(s: string): (k: nat)
    ensures k <= |s| && WhiteSpaceBetween(s, 0, k)
    ensures k == |s| || !IsWhiteSpace(s[k])
  {
    SkipForward(s, 0)
  }

  /** `String.prototype.trim`: the leading whitespace is skipped, then the
      trailing whitespace of what is left. The result is an infix of `s`
      with no whitespace at either end; everything before and after it in
      `s` is whitespace; it is empty exactly when `s` is whitespace only. */
  function Trim(s: string): (r: string)
    ensures IsTrimmed(r)
    ensures r == [] <==> AllWhiteSpace(s)
    ensures LeadLength(s) + |r| <= |s| && r == s[LeadLength(s)..LeadLength(s) + |r|]
    ensures WhiteSpaceBetween(s, LeadLength(s) + |r|, |s|)
  {
    var i := LeadLength(s);
    var j := SkipBackward(s, i, |s|);
    s[i..j]
  }

  /** SkipForward is determined by its contract: the first non-whitespace position. */
  lemma SkipForwardIsFirst(s: string, i: nat, k: nat)
    requires i <= k <= |s| && WhiteSpaceBetween(s, i, k)
    requires k == |s| || !IsWhiteSpace(s[k])
    ensures SkipForward(s, i) == k
  {
  }

  /** SkipBackward is determined by its contract: the end of the last non-whitespace character. */
  lemma SkipBackwardIsLast(s: string, lo: nat, j: nat, k: nat)
    requires lo <= k <= j <= |s| && WhiteSpaceBetween(s, k, j)
    requires k == lo || !IsWhiteSpace(s[k - 1])
    ensures SkipBackward(s, lo, j) == k
  {
  }

  /** Trim is determined by its contract: whatever whitespace pads a trimmed
      string, Trim gives back that string. With Trim's own ensures (every
      input is such a padding of its Trim) this characterises Trim completely. */
  lemma TrimOfPadded(p: string, r: string, q: string)
    requires AllWhiteSpace(p) && AllWhiteSpace(q)
    requires IsTrimmed(r)
    ensures Trim(p + r + q) == r
  {
    var s := p + r + q;
    if r == [] {
      assert AllWhiteSpace(s) by {
        forall m | 0 <= m < |s| ensures IsWhiteSpace(s[m]) {
          if m < |p| { assert s[m] == p[m]; } else { assert s[m] == q[m - |p|]; }
        }
      }
    } else {
      var i, j := |p|, |p| + |r|;
      assert s[i] == r[0];
      assert s[j - 1] == r[|r| - 1];
      assert WhiteSpaceBetween(s, 0, i) by {
        forall m | 0 <= m < i ensures IsWhiteSpace(s[m]) { assert s[m] == p[m]; }
      }
      assert WhiteSpaceBetween(s, j, |s|) by {
        forall m | j <= m < |s| ensures IsWhiteSpace(s[m]) { assert s[m] == q[m - j]; }
      }
      SkipForwardIsFirst(s, 0, i);
      SkipBackwardIsLast(s, i, |s|, j);
      assert s[i..j] == r;
    }
  }

  /** Trimming twice is trimming once. */
  lemma TrimIdempotent(s: string)
    ensures Trim(Trim(s)) == Trim(s)
  {
    var r := Trim(s);
    assert [] + r + [] == r;
    TrimOfPadded([], r, []);
  }
}
