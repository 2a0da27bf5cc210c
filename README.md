# Color variant display: image swapping for product-card swatches

A Dafny model of the logic in `assets/color-variant-display.js`, the
`ColorVariantDisplay` component. In a product card, clicking or hovering a
color swatch changes the product image to that variant's image. The model
covers four pieces of that component:

- **Candidate URL check.** A swatch's `data-image-url` is usable only if it
  is present and non-empty, is not the text `undefined`, and does not
  contain the template-engine marker `Liquid error`. The click listener,
  the hover set-up and `switchProductImage` each repeat this check
  (`CandidateUrl.IsUsable`). An unusable URL changes no image.
- **Responsive `srcset` builder.** For each width of `[165, 360, 533, 720,
  940, 1066]`, `imageUrl.replace(/width=\d+/, 'width=' + size)` rewrites the
  URL. The entry `<url> <size>w` is emitted, and the entries are joined
  with `", "` (`Srcset.BuildSrcset`). The replace is not global: only the
  leftmost `width=` followed by a digit is rewritten, together with its
  whole run of digits. The pattern is not anchored, so `max_width=300`
  matches too. A URL without a match is used unchanged (`WidthRewrite`).
- **Click swap.** `switchProductImage` starts an off-screen image (the
  probe) with the new `srcset`, `sizes` and `src`. On load, the card's
  product image is given `srcset`, then `sizes`, then `src`. On error, a
  line is logged and nothing else happens (`ImageSwap`).
- **Hover preview.** Set-up reads the secondary image's `src` and `srcset`.
  `mouseenter` clears `srcset` and shows the variant. `mouseleave` puts back
  the pair read at set-up (`HoverPreview`).

The URL check, the rewrite and the srcset are functions over `string`,
with lemmas. The images are objects of class `ImageElements.ImageElement`,
whose `src`, `srcset` and `sizes` fields change in place. A ghost `writes`
log on each element records the order of the attribute assignments. The
two load handlers are methods of `ImageSwap.Probe`, and the two hover
listeners are methods of `HoverPreview.SwatchHover`.

The code does not do the following, and neither does the model:

- appending `?width=` or `&width=` when the URL has no `width=` parameter;
- restoring the previous image when the probe fails to load;
- cancelling an earlier probe when a newer swap starts
  (`ImageSwap.LateLoadOfEarlierSwapWins` shows what the code does instead);
- forcing a reflow after the commit.

## Model

| member | source | states |
|---|---|---|
| `JsStrings.Includes` | assets/color-variant-display.js:29 | `s.includes(t)` holds exactly when `t` occurs in `s` at some index |
| `JsStrings.DecimalString` | assets/color-variant-display.js:105-106 | a width inside a template literal renders as one or more decimal digits, with no leading zero |
| `JsStrings.DecimalRoundTrip` | assets/color-variant-display.js:105-106 | reading back the digits written for a width gives that width |
| `JsStrings.DecimalStringInjective` | assets/color-variant-display.js:106 | different widths get different `<size>w` descriptors |
| `JsStrings.Join` | assets/color-variant-display.js:108 | `join(', ')` gives "" for no parts and the part itself for one part; otherwise it starts with the first part and ends with the last, with no separator before or after |
| `JsStrings.JoinSnoc` | assets/color-variant-display.js:108 | adding one part at the end adds exactly one separator and that part |
| `CandidateUrl.IsUsable` | assets/color-variant-display.js:87-93 | a URL is usable exactly when it is present, non-empty, not the text `undefined`, and `Liquid error` occurs at no index of it |
| `CandidateUrl.MarkerAnywhereRefused` | assets/color-variant-display.js:26-30 | a URL containing `Liquid error` anywhere is refused |
| `WidthRewrite.FindMatch` | assets/color-variant-display.js:105 | finds the leftmost index where `width=` followed by a digit starts, or reports that no index matches |
| `WidthRewrite.DigitRunEnd` | assets/color-variant-display.js:105 | `\d+` is greedy: the match takes the whole run of digits, ending at a non-digit or at the end of the string |
| `WidthRewrite.ReplaceWidth` | assets/color-variant-display.js:105 | a URL without a `width=<digit>` match comes back unchanged: no `?width=` or `&width=` is appended |
| `WidthRewrite.ReplaceAtLeftmost` | assets/color-variant-display.js:105 | the replace keeps every character before the leftmost match and after its digit run, and puts `width=<size>` in between |
| `WidthRewrite.RewrittenMatch` | assets/color-variant-display.js:105 | after the rewrite, the leftmost match is at the same index and its digits are exactly those of the new size |
| `WidthRewrite.WidthParam` | assets/color-variant-display.js:105 | the width read back from a URL is present exactly when the pattern matches |
| `WidthRewrite.WidthParamOfReplace` | assets/color-variant-display.js:105 | a rewritten URL reads back as the size written when the original had a match, and as no width otherwise |
| `WidthRewrite.ReplaceTwice` | assets/color-variant-display.js:105 | rewriting an already rewritten URL equals rewriting the original: the last size wins and nothing else changes |
| `WidthRewrite.NoMatchBeforeKey` | assets/color-variant-display.js:105 | in `p + "width=" + t` with no match inside `p`, no match starts before that `width=`: the leftmost match cannot begin inside or straddle `p` |
| `WidthRewrite.UnanchoredMatch` | assets/color-variant-display.js:105 | the pattern is not tied to a parameter boundary: `max_width=<digits>` is rewritten as well |
| `Srcset.Candidate` | assets/color-variant-display.js:104-107 | an entry `<url> <size>w` reads back as the rewritten URL and the width it was built for |
| `Srcset.Candidates` | assets/color-variant-display.js:103-107 | `map` gives one entry per width, in the same order, each `<rewritten url> <size>w` |
| `Srcset.WidthsAscending` | assets/color-variant-display.js:102 | the widths are strictly ascending |
| `Srcset.SrcsetShape` | assets/color-variant-display.js:102-108 | the srcset is exactly six entries for 165, 360, 533, 720, 940 and 1066, in that order, separated by `", "` |
| `Srcset.BuildSrcset` | assets/color-variant-display.js:102-108 | the srcset starts with the 165 entry and a separator, and ends with the 1066 entry and no trailing separator |
| `Srcset.WidthDigits` | assets/color-variant-display.js:102-106 | the six descriptors read `165`, `360`, `533`, `720`, `940` and `1066` |
| `Srcset.SrcsetWithoutWidthParam` | assets/color-variant-display.js:105-106 | with no `width=<digit>` in the URL, every entry is the unchanged URL, a space, the width and `w` |
| `Srcset.SrcsetWithWidthParam` | assets/color-variant-display.js:105-106 | with a match at `i` whose digits end at `e`, each entry keeps the URL before `i` and from `e` on; its URL reads back its own width |
| `Srcset.RewriteTrailingParam` | assets/color-variant-display.js:105 | for `<p>width=<digits>` where `p` has no match, only the trailing digits are replaced |
| `Srcset.TrailingWidthExample` | assets/color-variant-display.js:102-106 | for `<p>width=300` where `p` has no match, the 165 and 1066 entries are `<p>width=165 165w` and `<p>width=1066 1066w` |
| `Srcset.SizesTiers` | assets/color-variant-display.js:111-112 | the `sizes` string is three tiers joined with `", "`: at least 990px, at least 750px, then the fallback |
| `Srcset.ParseCandidate` | assets/color-variant-display.js:106 | reading an entry back gives a URL that is a proper prefix of the entry |
| `Srcset.ParseCandidateRoundTrip` | assets/color-variant-display.js:106 | any URL followed by a space, a width and `w` reads back as that URL and that width, even when the URL contains spaces |
| `ImageElements.ImageElement.constructor` | assets/color-variant-display.js:96 | an image element starts with the page's attribute values and an empty write log |
| `ImageElements.ImageElement.SetSrc` | assets/color-variant-display.js:119 | assigning `src` changes only `src` and logs one write |
| `ImageElements.ImageElement.SetSrcset` | assets/color-variant-display.js:117 | assigning `srcset` changes only `srcset` and logs one write |
| `ImageElements.ImageElement.SetSizes` | assets/color-variant-display.js:118 | assigning `sizes` changes only `sizes` and logs one write |
| `ImageSwap.LoadFailureMessage` | assets/color-variant-display.js:124 | the load-failure line names the URL: it contains it and ends with it |
| `ImageSwap.AssignResponsive` | assets/color-variant-display.js:110-113 | assigns `srcset`, `sizes` and `src` to the given values, logged in that order, and changes nothing else |
| `ImageSwap.Probe.constructor` | assets/color-variant-display.js:99-113 | a fresh off-screen image gets the generated srcset, the breakpoint `sizes` and the URL, in that order |
| `ImageSwap.Probe.OnLoad` | assets/color-variant-display.js:116-120 | on load the product image gets the generated srcset, the breakpoint `sizes` and the URL; the write order is srcset, sizes, src, and nothing else is written |
| `ImageSwap.Probe.OnError` | assets/color-variant-display.js:123-125 | on error the product image is unchanged and the only effect is the log line naming the URL |
| `ImageSwap.SwitchProductImage` | assets/color-variant-display.js:86-97 | a probe starts exactly when the URL is usable and the card has a product image; no existing element is assigned |
| `ImageSwap.OnSwatchClick` | assets/color-variant-display.js:20-33 | the click listener has the same outcome as `switchProductImage`; an unusable URL starts nothing |
| `ImageSwap.LateLoadOfEarlierSwapWins` | assets/color-variant-display.js:116-120 | probes are never cancelled: when an earlier swap's load finishes last, the image shows that earlier variant |
| `HoverPreview.SwatchHover.constructor` | assets/color-variant-display.js:68-70 | set-up records the secondary image's current `src` and `srcset` |
| `HoverPreview.SwatchHover.MouseEnter` | assets/color-variant-display.js:72-76 | `mouseenter` clears `srcset`, then sets `src` to the variant URL; `sizes` is unchanged |
| `HoverPreview.SwatchHover.MouseLeave` | assets/color-variant-display.js:78-82 | `mouseleave` restores the `srcset` and `src` recorded at set-up, whatever the image showed before |
| `HoverPreview.SwatchHover.EnterThenLeave` | assets/color-variant-display.js:69-82 | from the recorded state, enter followed by leave is a round trip on all three attributes |
| `HoverPreview.SwatchHover.LeaveTwice` | assets/color-variant-display.js:78-82 | leave is idempotent: a second leave changes no attribute |
| `HoverPreview.SetupSwatchHover` | assets/color-variant-display.js:48-66 | listeners are attached exactly when the swatch has a card with a secondary image and the URL is usable; nothing is assigned at set-up |

## Left out

- Element lookups (`querySelectorAll`, `closest`, `querySelector`) are left out. The elements they return become parameters, and `null` stands for an element that was not found.
- Listener registration (`forEach`, `addEventListener`) and `preventDefault` are left out. Each listener is a method that the caller invokes.
- The custom-element registration and the start-up on `DOMContentLoaded` are left out. They only wire things together.
- The card click-through that forwards a click to `.full-unstyled-link` is left out. It is event plumbing only.
- The `try`/`catch` blocks and their `console.error` calls are left out. They only log, and a failed lookup is modelled as "no change". The one log line kept is the probe's load-failure message, because it is that handler's only effect.
- The asynchrony of image loading is left out. `Probe.OnLoad` and `Probe.OnError` are methods that the caller invokes once the browser reports the outcome.
- Reading `img.src` returns the resolved absolute URL in a browser. The model treats `src` as the string last assigned.
- JavaScript strings are sequences of UTF-16 code units. The model uses Dafny strings, which does not matter for the ASCII patterns involved.
- `Srcset.TrailingWidthExample`: states the 165 and 1066 entries only. `Srcset.SrcsetShape` gives the whole six-entry string.
- The `sizes` string is assembled in `Srcset` from three tier constants. Its value is the single literal assigned at assets/color-variant-display.js:111-112.
