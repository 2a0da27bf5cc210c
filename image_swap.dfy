/** The click swap: a swatch click hands its image URL to
    `switchProductImage`, which loads it in an off-screen image first and
    commits it to the card's product image only when that load succeeds. */
module ImageSwap {
  import opened Wrappers
  import opened JsStrings
  import opened CandidateUrl
  import opened Srcset
  import opened ImageElements

  /** The log line written when the off-screen load fails: it names the URL
      that failed. */
  function LoadFailureMessage(imageUrl: string): (m: string)
    ensures Includes(m, imageUrl)
    ensures |m| > |imageUrl| && m[|m| - |imageUrl|..] == imageUrl
  {
    var m := "Failed to load variant image: " + imageUrl;
    assert OccursAt(m, imageUrl, |m| - |imageUrl|);
    m
  }

  /** The off-screen `new Image()` and the two handlers attached to it, which
      close over the card's product image, the candidate URL and the
      generated set. */
  class Probe {
    const image: ImageElement
    const target: ImageElement
    const imageUrl: string
    const srcset: string

    /** The probe was set up by `switchProductImage` for a usable URL: it is
        not the product image, and it was given the generated set, the
        breakpoint string and the URL, in that order. */
    ghost predicate Valid()
      reads this, image
    {
      image != target && IsUsable(Some(imageUrl)) && srcset == BuildSrcset(imageUrl)
      && image.srcset == srcset && image.sizes == SizesAttribute && image.src == imageUrl
      && image.writes == [Write(Srcset, srcset), Write(Sizes, SizesAttribute), Write(Src, imageUrl)]
    }

    constructor (target: ImageElement, imageUrl: string)
      requires IsUsable(Some(imageUrl))
      ensures Valid() && fresh(image)
      ensures this.target == target && this.imageUrl == imageUrl
    {
      var image := new ImageElement("", "", "");
      var srcset := BuildSrcset(imageUrl);
      AssignResponsive(image, srcset, SizesAttribute, imageUrl);
      this.image := image;
      this.target := target;
      this.imageUrl := imageUrl;
      this.srcset := srcset;
    }

    /** `newImage.onload`: the product image gets the generated set, then
        the breakpoint string, then the URL itself, and nothing else. */
    method OnLoad()
      requires Valid()
      modifies target
      ensures Valid()
      ensures target.srcset == BuildSrcset(imageUrl)
      ensures target.sizes == SizesAttribute
      ensures target.src == imageUrl
      ensures target.writes == old(target.writes)
        + [Write(Srcset, BuildSrcset(imageUrl)), Write(Sizes, SizesAttribute), Write(Src, imageUrl)]
    {
      AssignResponsive(target, srcset, image.sizes, imageUrl);
    }

    /** `newImage.onerror`: a log line naming the URL; the product image is
        left as it was, with nothing restored and nothing retried. */
    method OnError() returns (message: string)
      requires Valid()
      ensures unchanged(target)
      ensures message == LoadFailureMessage(imageUrl)
    {
      message := LoadFailureMessage(imageUrl);
    }
  }

  /** Assigns `srcset`, `sizes` and `src`, in that order: the order in which
      both the off-screen image and the product image receive them. */
  method AssignResponsive(target: ImageElement, srcset: string, sizes: string, src: string)
    modifies target
    ensures target.srcset == srcset && target.sizes == sizes && target.src == src
    ensures target.writes == old(target.writes) + [Write(Srcset, srcset), Write(Sizes, sizes), Write(Src, src)]
  {
    target.SetSrcset(srcset);
    target.SetSizes(sizes);
    target.SetSrc(src);
  }

  /** `switchProductImage(card, imageUrl)`, with `productImage` the card's
      `.card__media img` (null when the card has none). An unusable URL or a
      missing image returns before anything is created; otherwise a fresh
      probe is started. It assigns no attribute of any existing element. */
  method SwitchProductImage(productImage: ImageElement?, imageUrl: Option<string>) returns (probe: Probe?)
    ensures probe != null <==> IsUsable(imageUrl) && productImage != null
    ensures probe != null ==> fresh(probe) && fresh(probe.image) && probe.Valid()
    ensures probe != null ==> probe.target == productImage && probe.imageUrl == imageUrl.value
  {
    if !IsUsable(imageUrl) {
      return null;
    }
    if productImage == null {
      return null;
    }
    probe := new Probe(productImage, imageUrl.value);
  }

  /** The swatch's click listener: the same usability test guards the call,
      so the outcome is exactly that of `SwitchProductImage`. */
  method OnSwatchClick(productImage: ImageElement?, imageUrl: Option<string>) returns (probe: Probe?)
    ensures probe != null <==> IsUsable(imageUrl) && productImage != null
    ensures probe != null ==> fresh(probe) && fresh(probe.image) && probe.Valid()
    ensures probe != null ==> probe.target == productImage && probe.imageUrl == imageUrl.value
  {
    probe := null;
    if IsUsable(imageUrl) {
      probe := SwitchProductImage(productImage, imageUrl);
    }
  }

  /** Two swaps started on the same product image are not ordered by when
      they were started: if the earlier one's load completes after the
      later one's, the image ends up showing the earlier click's variant,
      since no probe is ever cancelled. */
  method LateLoadOfEarlierSwapWins(earlier: Probe, later: Probe)
    requires earlier.Valid() && later.Valid()
    requires earlier.target == later.target
    modifies earlier.target
    ensures earlier.target.src == earlier.imageUrl
    ensures earlier.target.srcset == BuildSrcset(earlier.imageUrl)
    ensures earlier.target.sizes == SizesAttribute
  {
    later.OnLoad();
    earlier.OnLoad();
  }
}
