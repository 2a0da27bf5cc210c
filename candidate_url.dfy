/** Whether a swatch's `data-image-url` may be used as an image source.
    The same test guards the click handler, the hover set-up and
    `switchProductImage`. */
module CandidateUrl {
  import opened Wrappers
  import opened JsStrings

  /** The marker the template engine leaves in an attribute it failed to render. */
  const LiquidErrorMarker: string := "Liquid error"

  /** The attribute is present and truthy (a non-empty string), is not the
      text `undefined`, and holds no template error marker. */
  function IsUsable(url: Option<string>): (b: bool)
    ensures b <==>
              url.Some? && |url.value| > 0 && url.value != "undefined"
              && forall i: nat :: !OccursAt(url.value, LiquidErrorMarker, i)
  {
    url.Some? && url.value != "" && url.value != "undefined"
    && !Includes(url.value, LiquidErrorMarker)
  }

  /** An attribute that merely mentions the marker somewhere is refused. */
  lemma MarkerAnywhereRefused(before: string, after: string)
    ensures !IsUsable(Some(before + LiquidErrorMarker + after))
  {
    var s := before + LiquidErrorMarker + after;
    assert s[|before|..|before| + |LiquidErrorMarker|] == LiquidErrorMarker;
    assert OccursAt(s, LiquidErrorMarker, |before|);
  }
}
