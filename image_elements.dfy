/** An `<img>` element as the swatch code sees it: three string attributes
    that it reads and assigns, one at a time. */
module ImageElements {

  datatype Attribute = Src | Srcset | Sizes

  /** One attribute assignment. */
  datatype Write = Write(attribute: Attribute, value: string)

  class ImageElement {
    var src: string
    var srcset: string
    var sizes: string
    /** Every attribute assignment made to this element, oldest first. */
    ghost var writes: seq<Write>

    constructor (src: string, srcset: string, sizes: string)
      ensures this.src == src && this.srcset == srcset && this.sizes == sizes
      ensures writes == []
    {
      this.src := src;
      this.srcset := srcset;
      this.sizes := sizes;
      writes := [];
    }

    /** `img.src = value` */
    method SetSrc(value: string)
      modifies this
      ensures src == value && srcset == old(srcset) && sizes == old(sizes)
      ensures writes == old(writes) + [Write(Src, value)]
    {
      src := value;
      writes := writes + [Write(Src, value)];
    }

    /** `img.srcset = value` */
    method SetSrcset(value: string)
      modifies this
      ensures srcset == value && src == old(src) && sizes == old(sizes)
      ensures writes == old(writes) + [Write(Srcset, value)]
    {
      srcset := value;
      writes := writes + [Write(Srcset, value)];
    }

    /** `img.sizes = value` */
    method SetSizes(value: string)
      modifies this
      ensures sizes == value && src == old(src) && srcset == old(srcset)
      ensures writes == old(writes) + [Write(Sizes, value)]
    {
      sizes := value;
      writes := writes + [Write(Sizes, value)];
    }
  }
}
