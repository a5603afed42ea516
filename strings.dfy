/** The pieces of Go's `strings` package that the handlers rely on:
    `ToLower`, `TrimSpace`, `Index` and `Replace(s, old, new, 1)`. */
module Strings {
  import opened Wrappers

  // ---------------------------------------------------------------------------
  // Lower-casing
  // ---------------------------------------------------------------------------

  predicate IsUpper(c: char) {
    'A' <= c <= 'Z'
  }

  /** Go's `unicode.ToLower` restricted to ASCII letters. */
  function LowerChar(c: char): (r: char)
    ensures !IsUpper(r)
    ensures IsUpper(c) ==> r as int == c as int + ('a' as int - 'A' as int)
    ensures !IsUpper(c) ==> r == c
    ensures IsSpace(r) <==> IsSpace(c)
  {
    if IsUpper(c) then (c as int + 32) as char else c
  }

  /** `strings.ToLower`: every character lower-cased, in place. */
  function Lower(s: string): (r: string)
    ensures |r| == |s|
    ensures forall i :: 0 <= i < |s| ==> r[i] == LowerChar(s[i])
  {
    seq(|s|, i requires 0 <= i < |s| => LowerChar(s[i]))
  }

  predicate IsLower(s: string) {
    forall i :: 0 <= i < |s| ==> !IsUpper(s[i])
  }

  /** A string without upper-case letters is its own lower-case form. */
  lemma LowerOfLowerCase(s: string)
    requires IsLower(s)
    ensures Lower(s) == s
  {
  }

  /** Lower-casing is idempotent, so normalising a handle twice changes nothing. */
  lemma LowerIdempotent(s: string)
    ensures IsLower(Lower(s))
    ensures Lower(Lower(s)) == Lower(s)
  {
  }

  // ---------------------------------------------------------------------------
  // Trimming white space
  // ---------------------------------------------------------------------------

  /** `unicode.IsSpace`: the Latin-1 spaces and the other Unicode White_Space characters. */
  predicate IsSpace(c: char) {
    || c == ' ' || c == '\t' || c == '\n' || c == '\U{000B}' || c == '\U{000C}' || c == '\r'
    || c == '\U{0085}' || c == '\U{00A0}' || c == '\U{1680}'
    || ('\U{2000}' <= c <= '\U{200A}')
    || c == '\U{2028}' || c == '\U{2029}' || c == '\U{202F}' || c == '\U{205F}' || c == '\U{3000}'
  }

  predicate AllSpace(s: string) {
    forall i :: 0 <= i < |s| ==> IsSpace(s[i])
  }

  /** The first position at or after `i` that does not hold white space, or `|s|`. */
  function SkipSpace(s: string, i: nat): (n: nat)
    requires i <= |s|
    ensures i <= n <= |s|
    ensures forall k :: i <= k < n ==> IsSpace(s[k])
    ensures n == |s| || !IsSpace(s[n])
    decreases |s| - i
  {
    if i < |s| && IsSpace(s[i]) then SkipSpace(s, i + 1) else i
  }

  /** Scanning back from `j`, but not past `lo`: the position just after the
      last character that is not white space, or `lo`. */
  function SkipSpaceBack(s: string, lo: nat, j: nat): (n: nat)
    requires lo <= j <= |s|
    ensures lo <= n <= j
    ensures forall k :: n <= k < j ==> IsSpace(s[k])
    ensures n == lo || !IsSpace(s[n - 1])
    decreases j
  {
    if j > lo && IsSpace(s[j - 1]) then SkipSpaceBack(s, lo, j - 1) else j
  }

  /** `s[lo..hi]` is a trimmed form of `s`: only white space lies outside it,
      and it neither starts nor ends with white space. */
  predicate TrimBounds(s: string, lo: int, hi: int) {
    && 0 <= lo <= hi <= |s|
    && (forall k :: 0 <= k < lo ==> IsSpace(s[k]))
    && (forall k :: hi <= k < |s| ==> IsSpace(s[k]))
    && (lo < hi ==> !IsSpace(s[lo]) && !IsSpace(s[hi - 1]))
  }

  /** `strings.TrimSpace`: skip white space from the start, then from the end
      back to where the first scan stopped. */
  function TrimSpace(s: string): (r: string)
    ensures exists lo, hi :: TrimBounds(s, lo, hi) && r == s[lo..hi]
  {
    var lo := SkipSpace(s, 0);
    var hi := SkipSpaceBack(s, lo, |s|);
    assert TrimBounds(s, lo, hi);
    s[lo..hi]
  }

  /** The trimmed form is determined by its bounds: any bounds with only white
      space outside and none at either end of the slice give `TrimSpace`. */
  lemma TrimSpaceByBounds(s: string, lo: int, hi: int)
    requires TrimBounds(s, lo, hi)
    ensures TrimSpace(s) == s[lo..hi]
  {
    var a := SkipSpace(s, 0);
    var b := SkipSpaceBack(s, a, |s|);
    if lo < hi {
      assert a == lo;
      assert b == hi;
    } else {
      assert a == |s|;
    }
  }

  /** A string without white space at either end is its own trimmed form. */
  lemma TrimSpaceOfTrimmed(s: string)
    requires s == [] || (!IsSpace(s[0]) && !IsSpace(s[|s| - 1]))
    ensures TrimSpace(s) == s
  {
    TrimSpaceByBounds(s, 0, |s|);
  }

  /** The bounds `TrimSpace` itself uses. */
  lemma TrimSpaceBounds(s: string) returns (lo: nat, hi: nat)
    ensures TrimBounds(s, lo, hi) && TrimSpace(s) == s[lo..hi]
  {
    lo := SkipSpace(s, 0);
    hi := SkipSpaceBack(s, lo, |s|);
  }

  /** Trimmed bounds of `s` carry over, shifted, to `s` with white space around it. */
  lemma TrimSpaceOfSurrounded(l: string, s: string, r: string, lo: nat, hi: nat)
    requires AllSpace(l) && AllSpace(r) && TrimBounds(s, lo, hi)
    ensures TrimSpace(l + s + r) == (l + s + r)[|l| + lo..|l| + hi]
  {
    var x := l + s + r;
    forall k | 0 <= k < |l| + lo ensures IsSpace(x[k]) {
      if k < |l| { assert x[k] == l[k]; } else { assert x[k] == s[k - |l|]; }
    }
    forall k | |l| + hi <= k < |x| ensures IsSpace(x[k]) {
      if k < |l| + |s| { assert x[k] == s[k - |l|]; } else { assert x[k] == r[k - |l| - |s|]; }
    }
    if lo < hi {
      assert x[|l| + lo] == s[lo] && x[|l| + hi - 1] == s[hi - 1];
    }
    TrimSpaceByBounds(x, |l| + lo, |l| + hi);
  }

  /** Surrounding white space does not change the trimmed string. */
  lemma TrimSpaceIgnoresSurroundingSpace(l: string, s: string, r: string)
    requires AllSpace(l) && AllSpace(r)
    ensures TrimSpace(l + s + r) == TrimSpace(s)
  {
    var lo, hi := TrimSpaceBounds(s);
    TrimSpaceOfSurrounded(l, s, r, lo, hi);
    MiddleSlice(l, s, r, lo, hi);
  }

  lemma MiddleSlice(l: string, s: string, r: string, lo: nat, hi: nat)
    requires lo <= hi <= |s|
    ensures (l + s + r)[|l| + lo..|l| + hi] == s[lo..hi]
  {
    var x := l + s + r;
    assert forall k :: 0 <= k < hi - lo ==> x[|l| + lo..|l| + hi][k] == s[lo..hi][k];
  }

  /** Lower-casing keeps trimmed bounds, since it neither creates nor removes white space. */
  lemma TrimSpaceOfLower(s: string, lo: nat, hi: nat)
    requires TrimBounds(s, lo, hi)
    ensures TrimSpace(Lower(s)) == Lower(s)[lo..hi]
  {
    var t := Lower(s);
    forall k | 0 <= k < |s| ensures IsSpace(t[k]) == IsSpace(s[k]) {
      assert t[k] == LowerChar(s[k]);
    }
    TrimSpaceByBounds(t, lo, hi);
  }

  /** Lower-casing commutes with trimming. */
  lemma LowerTrimSpace(s: string)
    ensures Lower(TrimSpace(s)) == TrimSpace(Lower(s))
  {
    var lo, hi := TrimSpaceBounds(s);
    TrimSpaceOfLower(s, lo, hi);
    LowerSlice(s, lo, hi);
  }

  lemma LowerSlice(s: string, lo: nat, hi: nat)
    requires lo <= hi <= |s|
    ensures Lower(s[lo..hi]) == Lower(s)[lo..hi]
  {
  }

  // ---------------------------------------------------------------------------
  // Searching and replacing
  // ---------------------------------------------------------------------------

  /** `pat` is found in `s` starting at position `i`. */
  predicate OccursAt(s: string, pat: string, i: nat) {
    i + |pat| <= |s| && forall k :: 0 <= k < |pat| ==> s[i + k] == pat[k]
  }

  /** `strings.Index`: the position of the first occurrence of `pat`, if any. */
  function FirstIndexOf(s: string, pat: string): (r: Option<nat>)
    ensures r.Some? ==> OccursAt(s, pat, r.value)
    ensures r.Some? ==> forall j: nat :: j < r.value ==> !OccursAt(s, pat, j)
    ensures r.None? ==> forall j: nat :: !OccursAt(s, pat, j)
    decreases |s|
  {
    if |pat| > |s| then None
    else if OccursAt(s, pat, 0) then Some(0)
    else
      ShiftOccurrences(s, pat);
      match FirstIndexOf(s[1..], pat)
      case None => None
      case Some(i) => Some(i + 1)
  }

  /** An occurrence in `s` at `j > 0` is an occurrence in `s[1..]` at `j - 1`. */
  lemma ShiftOccurrences(s: string, pat: string)
    requires |s| > 0
    ensures forall j: nat :: 0 < j ==> (OccursAt(s, pat, j) <==> OccursAt(s[1..], pat, j - 1))
  {
  }

  /** `strings.Replace(s, pat, rep, 1)`: the text before the first occurrence
      of `pat`, then `rep`, then the text after it; `s` itself when `pat` does
      not occur. */
  function ReplaceFirst(s: string, pat: string, rep: string): (r: string)
    ensures (forall j: nat :: !OccursAt(s, pat, j)) ==> r == s
    ensures forall i: nat :: OccursAt(s, pat, i) && (forall j: nat :: j < i ==> !OccursAt(s, pat, j)) ==>
      r == s[..i] + rep + s[i + |pat|..]
  {
    match FirstIndexOf(s, pat)
    case None => s
    case Some(i) => s[..i] + rep + s[i + |pat|..]
  }

  /** `ReplaceFirst` read through `FirstIndexOf`. */
  lemma ReplaceFirstByIndex(s: string, pat: string, rep: string)
    ensures match FirstIndexOf(s, pat)
            case None => ReplaceFirst(s, pat, rep) == s
            case Some(i) => ReplaceFirst(s, pat, rep) == s[..i] + rep + s[i + |pat|..]
  {
  }

  /** When `pat` occurs at `i` and nowhere before, that is the first occurrence. */
  lemma FirstIndexOfIs(s: string, pat: string, i: nat)
    requires OccursAt(s, pat, i)
    requires forall j: nat :: j < i ==> !OccursAt(s, pat, j)
    ensures FirstIndexOf(s, pat) == Some(i)
  {
  }

  /** If no character before `pat` is its first character, the first occurrence
      of `pat` is right after that prefix. */
  lemma FirstIndexAfterFreePrefix(p: string, pat: string, t: string)
    requires |pat| > 0 && pat[0] !in p
    ensures FirstIndexOf(p + pat + t, pat) == Some(|p|)
  {
    var s := p + pat + t;
    forall k | 0 <= k < |pat| ensures s[|p| + k] == pat[k] {
    }
    forall j: nat | j < |p| ensures !OccursAt(s, pat, j) {
      assert s[j + 0] == p[j];
    }
    FirstIndexOfIs(s, pat, |p|);
  }

  /** `[c] + pat` occurs at `j` exactly when `c` is at `j` and `pat` follows it. */
  lemma LeadOccurrence(s: string, c: char, pat: string, j: nat)
    ensures OccursAt(s, [c] + pat, j) <==> (j < |s| && s[j] == c && OccursAt(s, pat, j + 1))
  {
    var lead := [c] + pat;
    if j < |s| && s[j] == c && OccursAt(s, pat, j + 1) {
      forall k | 0 <= k < |lead| ensures s[j + k] == lead[k] {
        if k > 0 {
          assert s[(j + 1) + (k - 1)] == pat[k - 1];
        }
      }
    }
    if OccursAt(s, lead, j) {
      assert s[j + 0] == lead[0];
      forall k | 0 <= k < |pat| ensures s[(j + 1) + k] == pat[k] {
        assert s[j + (k + 1)] == lead[k + 1];
      }
    }
  }

  /** Extending the pattern by the character just before its first occurrence
      moves the first occurrence one place to the left. */
  lemma FirstIndexWithLead(s: string, c: char, pat: string, i: nat)
    requires FirstIndexOf(s, pat) == Some(i + 1) && s[i] == c
    ensures FirstIndexOf(s, [c] + pat) == Some(i)
  {
    LeadOccurrence(s, c, pat, i);
    forall j: nat | j < i ensures !OccursAt(s, [c] + pat, j) {
      LeadOccurrence(s, c, pat, j);
    }
    FirstIndexOfIs(s, [c] + pat, i);
  }

  /** Replacing the first occurrence keeps everything outside it: the text before
      it and the text after it. */
  lemma ReplaceFirstKeepsRest(s: string, pat: string, rep: string)
    requires FirstIndexOf(s, pat).Some?
    ensures var i := FirstIndexOf(s, pat).value;
            var r := ReplaceFirst(s, pat, rep);
            && |r| == |s| - |pat| + |rep|
            && r[..i] == s[..i]
            && r[i..i + |rep|] == rep
            && r[i + |rep|..] == s[i + |pat|..]
  {
    var i := FirstIndexOf(s, pat).value;
    var r := ReplaceFirst(s, pat, rep);
    assert r == s[..i] + rep + s[i + |pat|..];
  }
}
