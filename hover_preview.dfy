/** The hover preview: while the mouse is over a swatch, the card's
    secondary image shows the variant's URL with no responsive set; when it
    leaves, the `src` and `srcset` read at set-up are put back. */
module HoverPreview {
  import opened Wrappers
  import opened CandidateUrl
  import opened ImageElements

  /** The two listeners `setupSwatchHoverEvents` attaches to one swatch,
      with what they close over. */
  class SwatchHover {
    const secondary: ImageElement
    const variantUrl: string
    const originalSrc: string
    const originalSrcset: string

    /** Listeners are only attached for a usable URL. */
    ghost predicate Valid() {
      IsUsable(Some(variantUrl))
    }

    /** Reads the secondary image's current `srcset` and `src`. */
    constructor (secondary: ImageElement, variantUrl: string)
      requires IsUsable(Some(variantUrl))
      ensures Valid()
      ensures this.secondary == secondary && this.variantUrl == variantUrl
      ensures originalSrc == secondary.src && originalSrcset == secondary.srcset
    {
      this.secondary := secondary;
      this.variantUrl := variantUrl;
      originalSrcset := secondary.srcset;
      originalSrc := secondary.src;
    }

    /** `mouseenter`: clear `srcset`, then show the variant. */
    method MouseEnter()
      requires Valid()
      modifies secondary
      ensures secondary.srcset == "" && secondary.src == variantUrl
      ensures secondary.sizes == old(secondary.sizes)
      ensures secondary.writes == old(secondary.writes) + [Write(Srcset, ""), Write(Src, variantUrl)]
    {
      secondary.SetSrcset("");
      secondary.SetSrc(variantUrl);
    }

    /** `mouseleave`: put back the pair read at set-up, whatever the image
        showed in between. */
    method MouseLeave()
      requires Valid()
      modifies secondary
      ensures secondary.srcset == originalSrcset && secondary.src == originalSrc
      ensures secondary.sizes == old(secondary.sizes)
      ensures secondary.writes == old(secondary.writes)
        + [Write(Srcset, originalSrcset), Write(Src, originalSrc)]
    {
      secondary.SetSrcset(originalSrcset);
      secondary.SetSrc(originalSrc);
    }

    /** Entering then leaving, from the state read at set-up, is a round
        trip: all three attributes end as they began. */
    method EnterThenLeave()
      requires Valid()
      requires secondary.src == originalSrc && secondary.srcset == originalSrcset
      modifies secondary
      ensures secondary.src == old(secondary.src)
      ensures secondary.srcset == old(secondary.srcset)
      ensures secondary.sizes == old(secondary.sizes)
    {
      MouseEnter();
      MouseLeave();
    }

    /** A second `mouseleave` changes nothing the first did not. */
    method LeaveTwice()
      requires Valid()
      modifies secondary
      ensures secondary.src == originalSrc && secondary.srcset == originalSrcset
      ensures secondary.sizes == old(secondary.sizes)
    {
      MouseLeave();
      ghost var src, srcset, sizes := secondary.src, secondary.srcset, secondary.sizes;
      MouseLeave();
      assert secondary.src == src && secondary.srcset == srcset && secondary.sizes == sizes;
    }
  }

  /** The set-up for one swatch, with `secondary` the card's
      `.media--hover-effect img:last-child` (null when the swatch has no
      card or the card no such image). A missing image or an unusable URL
      attaches nothing; nothing is assigned either way. */
  method SetupSwatchHover(secondary: ImageElement?, variantUrl: Option<string>) returns (hover: SwatchHover?)
    ensures hover != null <==> secondary != null && IsUsable(variantUrl)
    ensures hover != null ==> fresh(hover) && hover.Valid()
    ensures hover != null ==> hover.secondary == secondary && hover.variantUrl == variantUrl.value
    ensures hover != null ==> hover.originalSrc == secondary.src && hover.originalSrcset == secondary.srcset
  {
    if secondary == null {
      return null;
    }
    if !IsUsable(variantUrl) {
      return null;
    }
    hover := new SwatchHover(secondary, variantUrl.value);
  }
}
