/** The responsive image set `switchProductImage` builds: one candidate per
    width of a fixed ascending list, each `<url> <width>w` with the URL's
    `width=` parameter rewritten, joined with `", "`; and the constant
    `sizes` breakpoint string that goes with it. */
module Srcset {
  import opened Wrappers
  import opened JsStrings
  import opened WidthRewrite

  /** The widths, in pixels, of the responsive set, in the order emitted. */
  const Widths: seq<nat> := [165, 360, 533, 720, 940, 1066]

  /** Viewport at least 990px: a quarter of (100vw - 130px). */
  const WideTier: string := "(min-width: 990px) calc((100vw - 130px) / 4)"
  /** Viewport at least 750px: a third of (100vw - 120px). */
  const MediumTier: string := "(min-width: 750px) calc((100vw - 120px) / 3)"
  /** Otherwise: half of (100vw - 35px). */
  const NarrowTier: string := "calc((100vw - 35px) / 2)"

  /** The `sizes` breakpoint string, the three tiers separated by `", "`. */
  const SizesAttribute: string := WideTier + Separator + (MediumTier + Separator + NarrowTier)

  const Separator: string := ", "

  /** One image candidate: the rewritten URL, a space, the width and `w`.
      Read back, it gives that URL and that width. */
  function Candidate(url: string, size: nat): (c: string)
    ensures ParseCandidate(c) == Some((ReplaceWidth(url, size), size))
  {
    ParseCandidateRoundTrip(ReplaceWidth(url, size), size);
    ReplaceWidth(url, size) + " " + DecimalString(size) + "w"
  }

  /** `sizes.map(...)`: one candidate per width, in the same order. */
  function Candidates(url: string, sizes: seq<nat>): (cs: seq<string>)
    ensures |cs| == |sizes|
    ensures forall k :: 0 <= k < |sizes| ==> cs[k] == Candidate(url, sizes[k])
  {
    if sizes == [] then [] else [Candidate(url, sizes[0])] + Candidates(url, sizes[1..])
  }

  /** The `srcset` string for a candidate image URL: it starts with the
      165-pixel candidate and a separator, and ends with the 1066-pixel
      candidate and nothing after it. */
  function BuildSrcset(url: string): (s: string)
    ensures Candidate(url, 165) + Separator <= s
    ensures var last := Candidate(url, 1066); |last| <= |s| && s[|s| - |last|..] == last
  {
    var cs := Candidates(url, Widths);
    JoinEnds(cs);
    assert Widths[0] == 165 && Widths[5] == 1066;
    assert cs[0] == Candidate(url, 165);
    assert cs[|cs| - 1] == Candidate(url, 1066);
    Join(cs, Separator)
  }

  /** A join of at least two parts starts with the first part and a
      separator, and ends with the last part. */
  lemma JoinEnds(cs: seq<string>)
    requires |cs| >= 2
    ensures cs[0] + Separator <= Join(cs, Separator)
    ensures |cs[|cs| - 1]| <= |Join(cs, Separator)|
    ensures var r := Join(cs, Separator); r[|r| - |cs[|cs| - 1]|..] == cs[|cs| - 1]
  {
    JoinCons(cs, 0);
    assert cs[0..] == cs;
  }

  /** Each width is larger than the one before it. */
  lemma WidthsAscending()
    ensures forall i, j :: 0 <= i < j < |Widths| ==> Widths[i] < Widths[j]
  {
  }

  /** The set has exactly six candidates, in ascending width order, with
      `", "` between neighbours and no separator before the first or after
      the last. */
  lemma SrcsetShape(url: string)
    ensures BuildSrcset(url) ==
      Candidate(url, 165) + Separator + (Candidate(url, 360) + Separator +
      (Candidate(url, 533) + Separator + (Candidate(url, 720) + Separator +
      (Candidate(url, 940) + Separator + Candidate(url, 1066)))))
  {
    var cs := Candidates(url, Widths);
    JoinSix(cs);
    assert cs[0] == Candidate(url, 165) && cs[1] == Candidate(url, 360);
    assert cs[2] == Candidate(url, 533) && cs[3] == Candidate(url, 720);
    assert cs[4] == Candidate(url, 940) && cs[5] == Candidate(url, 1066);
  }

  /** Joining six parts, written out. */
  lemma JoinSix(cs: seq<string>)
    requires |cs| == 6
    ensures Join(cs, Separator) ==
      cs[0] + Separator + (cs[1] + Separator + (cs[2] + Separator +
      (cs[3] + Separator + (cs[4] + Separator + cs[5]))))
  {
    assert Join(cs[5..], Separator) == cs[5];
    JoinCons(cs, 4);
    JoinCons(cs, 3);
    JoinCons(cs, 2);
    JoinCons(cs, 1);
    JoinCons(cs, 0);
    assert cs[0..] == cs;
  }

  /** One unfolding of `Join` on a suffix of at least two parts. */
  lemma JoinCons(cs: seq<string>, k: nat)
    requires k + 1 < |cs|
    ensures Join(cs[k..], Separator) == cs[k] + Separator + Join(cs[k + 1..], Separator)
  {
    assert cs[k..][1..] == cs[k + 1..];
  }

  /** The width descriptors are the decimal digits of the widths. */
  lemma WidthDigits()
    ensures DecimalString(165) == "165" && DecimalString(360) == "360"
    ensures DecimalString(533) == "533" && DecimalString(720) == "720"
    ensures DecimalString(940) == "940" && DecimalString(1066) == "1066"
  {
    assert DecimalString(1) == "1" && DecimalString(16) == "16";
    assert DecimalString(3) == "3" && DecimalString(36) == "36";
    assert DecimalString(5) == "5" && DecimalString(53) == "53";
    assert DecimalString(7) == "7" && DecimalString(72) == "72";
    assert DecimalString(9) == "9" && DecimalString(94) == "94";
    assert DecimalString(10) == "10" && DecimalString(106) == "106";
  }

  /** A URL with no `width=<digit>` appears unchanged in every candidate:
      no `?width=` or `&width=` is added. */
  lemma SrcsetWithoutWidthParam(url: string, k: nat)
    requires !HasMatch(url)
    requires k < |Widths|
    ensures Candidates(url, Widths)[k] == url + " " + DecimalString(Widths[k]) + "w"
  {
  }

  /** With a `width=` parameter whose leftmost match starts at `i` and whose
      digits end at `e`, every candidate keeps the URL around those digits
      and puts its own width in their place. */
  lemma SrcsetWithWidthParam(url: string, i: nat, e: nat, k: nat)
    requires IsLeftmostMatch(url, i) && IsDigitRun(url, i + |Key|, e)
    requires k < |Widths|
    ensures Candidates(url, Widths)[k] ==
      url[..i] + Key + DecimalString(Widths[k]) + url[e..] + " " + DecimalString(Widths[k]) + "w"
    ensures WidthParam(ReplaceWidth(url, Widths[k])) == Some(Widths[k])
  {
    ReplaceAtLeftmost(url, Widths[k], i, e);
    WidthParamOfReplace(url, Widths[k]);
  }

  /** The last space before index `j` of `s`, if any. */
  function LastSpace(s: string, j: nat): (r: Option<nat>)
    requires j <= |s|
    ensures r.Some? ==> r.value < j && s[r.value] == ' '
    ensures r.Some? ==> forall q :: r.value < q < j ==> s[q] != ' '
    ensures r.None? ==> forall q :: 0 <= q < j ==> s[q] != ' '
  {
    if j == 0 then None else if s[j - 1] == ' ' then Some(j - 1) else LastSpace(s, j - 1)
  }

  /** How a consumer of the set reads one candidate back: the URL before the
      last space, and the width between that space and the final `w`. */
  function ParseCandidate(entry: string): (r: Option<(string, nat)>)
    ensures r.Some? ==> |r.value.0| < |entry| && r.value.0 == entry[..|r.value.0|]
  {
    if |entry| == 0 || entry[|entry| - 1] != 'w' then None
    else match LastSpace(entry, |entry| - 1)
      case None => None
      case Some(sp) =>
        var digits := entry[sp + 1..|entry| - 1];
        if |digits| > 0 && AllDigits(digits) then Some((entry[..sp], DecimalValue(digits))) else None
  }

  lemma LastSpaceIs(s: string, j: nat, p: nat)
    requires p < j <= |s| && s[p] == ' '
    requires forall q :: p < q < j ==> s[q] != ' '
    ensures LastSpace(s, j) == Some(p)
  {
    var r := LastSpace(s, j);
    assert r.Some?;
    assert !(r.value < p) && !(p < r.value);
  }

  /** Any URL followed by a space, a width and `w` reads back as that URL
      and that width, even when the URL itself contains spaces. */
  lemma {:induction false} ParseCandidateRoundTrip(u: string, size: nat)
    ensures ParseCandidate(u + " " + DecimalString(size) + "w") == Some((u, size))
  {
    var d := DecimalString(size);
    var entry := u + " " + d + "w";
    assert entry[|u|] == ' ';
    forall q | |u| < q < |entry| - 1 ensures entry[q] != ' ' {
      assert entry[q] == d[q - |u| - 1];
      assert IsDigit(d[q - |u| - 1]);
    }
    LastSpaceIs(entry, |entry| - 1, |u|);
    assert entry[|u| + 1..|entry| - 1] == d;
    assert entry[..|u|] == u;
    DecimalRoundTrip(size);
  }

  /** A URL `<p>width=<digits>` with no match in `p` has just that
      parameter's value replaced, and nothing else. */
  lemma RewriteTrailingParam(p: string, digits: string, size: nat)
    requires !HasMatch(p)
    requires |digits| > 0 && AllDigits(digits)
    ensures ReplaceWidth(p + Key + digits, size) == p + Key + DecimalString(size)
  {
    var url := p + Key + digits;
    NoMatchBeforeKey(p, digits);
    assert url[|p|..|p| + |Key|] == Key;
    assert url[|p| + |Key|] == digits[0];
    assert MatchesAt(url, |p|);
    forall k | |p| + |Key| <= k < |url| ensures IsDigit(url[k]) {
      assert url[k] == digits[k - |p| - |Key|];
    }
    assert IsDigitRun(url, |p| + |Key|, |url|);
    ReplaceAtLeftmost(url, size, |p|, |url|);
    assert url[..|p|] == p;
    assert url[|url|..] == [];
  }

  /** For a URL `<p>width=300` with no match in `p` (such as
      `https://www.x.com/img.jpg?`), the set's first candidate asks for 165
      and its last for 1066, with `p` kept in both. */
  lemma TrailingWidthExample(p: string)
    requires !HasMatch(p)
    ensures Candidate(p + Key + "300", 165) == p + Key + "165" + " " + "165" + "w"
    ensures Candidate(p + Key + "300", 1066) == p + Key + "1066" + " " + "1066" + "w"
  {
    RewriteTrailingParam(p, "300", 165);
    RewriteTrailingParam(p, "300", 1066);
    WidthDigits();
  }

  /** The `sizes` string has three tiers, widest viewport first: at least
      990px, at least 750px, and an unconditional fallback. */
  lemma SizesTiers()
    ensures SizesAttribute == Join([WideTier, MediumTier, NarrowTier], Separator)
  {
    JoinThree([WideTier, MediumTier, NarrowTier]);
  }

  /** Joining three parts, written out. */
  lemma JoinThree(ts: seq<string>)
    requires |ts| == 3
    ensures Join(ts, Separator) == ts[0] + Separator + (ts[1] + Separator + ts[2])
  {
    assert Join(ts[2..], Separator) == ts[2];
    JoinCons(ts, 1);
    JoinCons(ts, 0);
    assert ts[0..] == ts;
  }
}
