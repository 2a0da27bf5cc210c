/** `imageUrl.replace(/width=\d+/, 'width=' + size)`: a non-global replace,
    so only the leftmost `width=` followed by at least one digit is
    rewritten, together with its whole (greedy) run of digits. The pattern
    is not anchored to a query-parameter boundary, and nothing is appended
    when it does not match. */
module WidthRewrite {
  import opened Wrappers
  import opened JsStrings

  const Key: string := "width="

  /** The pattern `width=\d+` can start a match at index `i` of `s`. */
  predicate MatchesAt(s: string, i: nat) {
    i + |Key| < |s| && s[i..i + |Key|] == Key && IsDigit(s[i + |Key|])
  }

  predicate HasMatch(s: string) {
    exists i: nat :: i < |s| && MatchesAt(s, i)
  }

  /** `i` is where the regular-expression engine's leftmost match starts. */
  predicate IsLeftmostMatch(s: string, i: nat) {
    MatchesAt(s, i) && forall k: nat :: k < i ==> !MatchesAt(s, k)
  }

  /** `s[j..e]` is the longest run of digits that starts at `j`. */
  predicate IsDigitRun(s: string, j: nat, e: nat) {
    j <= e <= |s| && (forall k :: j <= k < e ==> IsDigit(s[k])) && (e == |s| || !IsDigit(s[e]))
  }

  /** The first match at or after `from`, if any. */
  function FindMatch(s: string, from: nat): (r: Option<nat>)
    ensures r.Some? ==> from <= r.value && MatchesAt(s, r.value)
    ensures r.Some? ==> forall k: nat :: from <= k < r.value ==> !MatchesAt(s, k)
    ensures r.None? ==> forall k: nat :: from <= k ==> !MatchesAt(s, k)
    decreases |s| - from
  {
    if |s| <= from + |Key| then None
    else if MatchesAt(s, from) then Some(from)
    else FindMatch(s, from + 1)
  }

  /** The end of the greedy `\d+` run that starts at `j`. */
  function DigitRunEnd(s: string, j: nat): (e: nat)
    requires j <= |s|
    ensures IsDigitRun(s, j, e)
    decreases |s| - j
  {
    if j < |s| && IsDigit(s[j]) then DigitRunEnd(s, j + 1) else j
  }

  /** The URL for one width of the responsive set. A URL without a match
      comes back unchanged: no `?width=` or `&width=` is appended. */
  function ReplaceWidth(s: string, size: nat): (r: string)
    ensures !HasMatch(s) ==> r == s
  {
    match FindMatch(s, 0)
    case None => s
    case Some(i) => s[..i] + Key + DecimalString(size) + s[DigitRunEnd(s, i + |Key|)..]
  }

  /** The width the URL's leftmost `width=` parameter asks for, read back
      from its digits; `None` when the pattern does not match. */
  function WidthParam(s: string): (r: Option<nat>)
    ensures r.Some? <==> HasMatch(s)
  {
    match FindMatch(s, 0)
    case None => None
    case Some(i) =>
      var e := DigitRunEnd(s, i + |Key|);
      Some(DecimalValue(s[i + |Key|..e]))
  }

  lemma LeftmostUnique(s: string, i: nat, j: nat)
    requires IsLeftmostMatch(s, i) && IsLeftmostMatch(s, j)
    ensures i == j
  {
  }

  lemma DigitRunUnique(s: string, j: nat, e1: nat, e2: nat)
    requires IsDigitRun(s, j, e1) && IsDigitRun(s, j, e2)
    ensures e1 == e2
  {
  }

  /** The replace keeps every character before the leftmost match and every
      character after its digit run, and puts `width=<size>` in between. */
  lemma ReplaceAtLeftmost(s: string, size: nat, i: nat, e: nat)
    requires IsLeftmostMatch(s, i)
    requires IsDigitRun(s, i + |Key|, e)
    ensures ReplaceWidth(s, size) == s[..i] + Key + DecimalString(size) + s[e..]
  {
    var m := FindMatch(s, 0);
    assert m.Some?;
    LeftmostUnique(s, i, m.value);
    DigitRunUnique(s, i + |Key|, e, DigitRunEnd(s, i + |Key|));
  }

  /** After the rewrite the leftmost match is still at `i`, and its digit
      run is exactly the digits of `size`. */
  lemma RewrittenMatch(s: string, size: nat, i: nat, e: nat)
    requires IsLeftmostMatch(s, i)
    requires IsDigitRun(s, i + |Key|, e)
    ensures var r := ReplaceWidth(s, size);
      IsLeftmostMatch(r, i) && IsDigitRun(r, i + |Key|, i + |Key| + |DecimalString(size)|)
      && r[i + |Key|..i + |Key| + |DecimalString(size)|] == DecimalString(size)
  {
    ReplaceAtLeftmost(s, size, i, e);
    var d := DecimalString(size);
    var r := s[..i] + Key + d + s[e..];
    assert r[..i + |Key|] == s[..i + |Key|];
    assert r[i..i + |Key|] == Key;
    assert r[i + |Key|] == d[0];
    assert MatchesAt(r, i);
    SharedPrefixNoEarlierMatch(s, r, i);
    forall k | i + |Key| <= k < i + |Key| + |d| ensures IsDigit(r[k]) {
      assert r[k] == d[k - i - |Key|];
    }
    if e < |s| {
      assert r[i + |Key| + |d|] == s[e];
    }
    assert r[i + |Key|..i + |Key| + |d|] == d;
  }

  /** Two strings that agree on their first `i + |Key|` characters have
      the same matches before `i`. */
  lemma SharedPrefixNoEarlierMatch(s: string, r: string, i: nat)
    requires i + |Key| < |s| && i + |Key| < |r| && r[..i + |Key|] == s[..i + |Key|]
    requires forall k: nat :: k < i ==> !MatchesAt(s, k)
    ensures forall k: nat :: k < i ==> !MatchesAt(r, k)
  {
    forall j | 0 <= j < i + |Key| ensures r[j] == s[j] {
      assert r[j] == r[..i + |Key|][j];
    }
    forall k: nat | k < i ensures !MatchesAt(r, k) {
      // the window of a match starting before `i` lies inside the shared prefix
      assert r[k..k + |Key|] == s[k..k + |Key|];
      assert !MatchesAt(s, k);
    }
  }

  /** Reading the width back from a rewritten URL gives the size written,
      whenever the original URL had a `width=` parameter to rewrite. */
  lemma WidthParamOfReplace(s: string, size: nat)
    ensures WidthParam(ReplaceWidth(s, size)) == if HasMatch(s) then Some(size) else None
  {
    if HasMatch(s) {
      var i := FindMatch(s, 0).value;
      var e := DigitRunEnd(s, i + |Key|);
      var r := ReplaceWidth(s, size);
      RewrittenMatch(s, size, i, e);
      var j := FindMatch(r, 0).value;
      LeftmostUnique(r, i, j);
      DigitRunUnique(r, i + |Key|, i + |Key| + |DecimalString(size)|, DigitRunEnd(r, j + |Key|));
      DecimalRoundTrip(size);
    }
  }

  /** Rewriting an already rewritten URL is the same as rewriting the
      original: the last width written wins, and nothing else moves. */
  lemma ReplaceTwice(s: string, a: nat, b: nat)
    ensures ReplaceWidth(ReplaceWidth(s, a), b) == ReplaceWidth(s, b)
  {
    if HasMatch(s) {
      var i := FindMatch(s, 0).value;
      var e := DigitRunEnd(s, i + |Key|);
      var r := ReplaceWidth(s, a);
      var d := DecimalString(a);
      RewrittenMatch(s, a, i, e);
      ReplaceAtLeftmost(s, a, i, e);
      ReplaceAtLeftmost(r, b, i, i + |Key| + |d|);
      ReplaceAtLeftmost(s, b, i, e);
      assert r[..i] == s[..i];
      assert r[i + |Key| + |d|..] == s[e..];
    }
  }

  /** The pattern is not anchored: a `max_width=` parameter is rewritten as
      well, and so is whatever precedes a later `width=`. */
  lemma UnanchoredMatch(prefix: string, digits: string, rest: string, size: nat)
    requires !HasMatch(prefix + "max_")
    requires |digits| > 0 && AllDigits(digits)
    requires rest == [] || !IsDigit(rest[0])
    ensures ReplaceWidth(prefix + "max_" + Key + digits + rest, size)
         == prefix + "max_" + Key + DecimalString(size) + rest
  {
    var p := prefix + "max_";
    var s := p + Key + digits + rest;
    var i := |p|;
    assert s == p + Key + (digits + rest);
    NoMatchBeforeKey(p, digits + rest);
    assert s[i..i + |Key|] == Key;
    assert s[i + |Key|] == digits[0];
    assert MatchesAt(s, i);
    var e := i + |Key| + |digits|;
    forall k | i + |Key| <= k < e ensures IsDigit(s[k]) {
      assert s[k] == digits[k - i - |Key|];
    }
    if e < |s| {
      assert s[e] == rest[0];
    }
    ReplaceAtLeftmost(s, size, i, e);
    assert s[..i] == p;
    assert s[e..] == rest;
  }

  /** In `p + "width=" + t`, with no match inside `p`, no match starts
      before the `width=` that follows `p`: a window inside `p` would be a
      match of `p`, a window ending just before it is followed by its `w`,
      and a window overlapping it would need a `w` where `width=` has none. */
  lemma NoMatchBeforeKey(p: string, t: string)
    requires !HasMatch(p)
    ensures forall k: nat :: k < |p| ==> !MatchesAt(p + Key + t, k)
  {
    var url := p + Key + t;
    assert url[|p|] == 'w';
    assert forall j :: 1 <= j < |Key| ==> Key[j] != 'w';
    forall k: nat | k < |p| ensures !MatchesAt(url, k) {
      if k + |Key| < |p| {
        assert url[k..k + |Key|] == p[k..k + |Key|];
        assert url[k + |Key|] == p[k + |Key|];
        assert !MatchesAt(p, k);
      } else if k + |Key| == |p| {
        assert !IsDigit(url[k + |Key|]);
      } else if k + |Key| < |url| {
        assert url[k..k + |Key|][|p| - k] == 'w';
        assert url[k..k + |Key|] != Key;
      }
    }
  }
}
