/**
 * The layout arithmetic of `memeGenerate`: captions are upper-cased, the
 * largest font size not above a fifth of the image height at which both
 * captions fit with a 10-pixel margin on each side is searched for by
 * counting down, and each caption is then centred horizontally, the top
 * one flush with the top edge and the bottom one flush with the bottom edge.
 *
 * Glyph measurement (PIL's `ImageFont.truetype(...).getsize`) is a
 * parameter: a total function from a text and a font size to the extent of
 * the rendered text.
 */
module MemeLayout {

  /** Rendered width and height of a text, in pixels. */
  datatype Extent = Extent(width: nat, height: nat)

  /** Text measurement with the bundled typeface at a given size. */
  type Measure = (string, int) -> Extent

  /** Upper-casing of one character (ASCII letters only). */
  function UpperChar(c: char): (u: char)
    ensures !('a' <= u <= 'z')
    ensures 'a' <= c <= 'z' ==> 'A' <= u <= 'Z' && u as int + 32 == c as int
    ensures !('a' <= c <= 'z') ==> u == c
  {
    if 'a' <= c <= 'z' then (c as int - 32) as char else c
  }

  /** `str.upper()` on ASCII text: same length, every lower-case letter
      replaced by its capital, everything else kept. */
  function Upper(s: string): (r: string)
    ensures |r| == |s|
    ensures forall i :: 0 <= i < |s| ==> r[i] == UpperChar(s[i])
  {
    seq(|s|, i requires 0 <= i < |s| => UpperChar(s[i]))
  }

  /** Upper-casing twice is upper-casing once. */
  lemma UpperIdempotent(s: string)
    ensures Upper(Upper(s)) == Upper(s)
  {
  }

  /** The first size tried: `int(height / 5)`. */
  function StartSize(height: nat): (s: nat)
    ensures 5 * s <= height < 5 * (s + 1)
  {
    height / 5
  }

  /** Both captions, measured at `size`, are at most `width - 20` wide;
      this is the negation of the search loop's condition. */
  predicate Fits(measure: Measure, width: nat, top: string, bottom: string, size: int) {
    measure(top, size).width <= width - 20 && measure(bottom, size).width <= width - 20
  }

  /** One font instantiation and measurement made by the search. */
  datatype Probe = Probe(text: string, fontSize: int)

  /** The measurements the search makes while counting down from `hi` to
      `lo`: the top caption then the bottom caption, at each size in turn. */
  function SearchProbes(top: string, bottom: string, hi: int, lo: int): seq<Probe>
    decreases hi - lo + 1
  {
    if hi < lo then []
    else SearchProbes(top, bottom, hi, lo + 1) + [Probe(top, lo), Probe(bottom, lo)]
  }

  /** The search measures each size from `hi` down to `lo` exactly once,
      one size lower at each step, top caption first. */
  lemma {:induction false} SearchProbesAt(top: string, bottom: string, hi: int, lo: int, k: int)
    requires lo <= hi && 0 <= k <= hi - lo
    ensures |SearchProbes(top, bottom, hi, lo)| == 2 * (hi - lo + 1)
    ensures SearchProbes(top, bottom, hi, lo)[2 * k] == Probe(top, hi - k)
    ensures SearchProbes(top, bottom, hi, lo)[2 * k + 1] == Probe(bottom, hi - k)
    decreases hi - lo
  {
    if lo < hi {
      if k < hi - lo {
        SearchProbesAt(top, bottom, hi, lo + 1, k);
      } else {
        SearchProbesAt(top, bottom, hi, lo + 1, 0);
      }
    } else {
      assert SearchProbes(top, bottom, hi, lo + 1) == [];
    }
  }

  /** Every measurement is of one of the two captions, at a size in `lo..hi`. */
  lemma {:induction false} SearchProbesMeasureCaptions(top: string, bottom: string, hi: int, lo: int)
    ensures forall p :: p in SearchProbes(top, bottom, hi, lo) ==>
      (p.text == top || p.text == bottom) && lo <= p.fontSize <= hi
    decreases hi - lo + 1
  {
    if lo <= hi {
      SearchProbesMeasureCaptions(top, bottom, hi, lo + 1);
    }
  }

  /** The font-size search of `memeGenerate`: start at a fifth of the image
      height and step down one size at a time, re-measuring both captions,
      until both fit. It returns the largest fitting size not above the
      start, the two extents measured at that size, and the measurements it
      made. Some size from 1 up to the start must fit. */
  method FindFontSize(measure: Measure, width: nat, height: nat, top: string, bottom: string)
    returns (size: int, topExtent: Extent, bottomExtent: Extent, probes: seq<Probe>)
    requires exists s :: 1 <= s <= StartSize(height) && Fits(measure, width, top, bottom, s)
    ensures 1 <= size <= StartSize(height)
    ensures Fits(measure, width, top, bottom, size)
    ensures forall s :: size < s <= StartSize(height) ==> !Fits(measure, width, top, bottom, s)
    ensures topExtent == measure(top, size) && bottomExtent == measure(bottom, size)
    ensures probes == SearchProbes(top, bottom, StartSize(height), size)
  {
    size := StartSize(height);
    topExtent := measure(top, size);
    bottomExtent := measure(bottom, size);
    probes := [Probe(top, size), Probe(bottom, size)];
    while topExtent.width > width - 20 || bottomExtent.width > width - 20
      invariant size <= StartSize(height)
      invariant exists s :: 1 <= s <= size && Fits(measure, width, top, bottom, s)
      invariant forall s :: size < s <= StartSize(height) ==> !Fits(measure, width, top, bottom, s)
      invariant topExtent == measure(top, size) && bottomExtent == measure(bottom, size)
      invariant probes == SearchProbes(top, bottom, StartSize(height), size)
      decreases size
    {
      size := size - 1;
      topExtent := measure(top, size);
      bottomExtent := measure(bottom, size);
      probes := probes + [Probe(top, size), Probe(bottom, size)];
    }
  }

  /** Where a caption's text starts: x may be a half pixel (Python's true
      division), y is whole. */
  datatype Anchor = Anchor(x: real, y: int)

  /** The top caption is centred horizontally and touches the top edge. */
  function TopAnchor(width: nat, extent: Extent): (a: Anchor)
    ensures a.x + extent.width as real / 2.0 == width as real / 2.0
    ensures a.y == 0
  {
    Anchor(width as real / 2.0 - extent.width as real / 2.0, 0)
  }

  /** The bottom caption is centred horizontally and its box ends at the
      bottom edge. */
  function BottomAnchor(width: nat, height: nat, extent: Extent): (a: Anchor)
    ensures a.x + extent.width as real / 2.0 == width as real / 2.0
    ensures a.y + extent.height == height
  {
    Anchor(width as real / 2.0 - extent.width as real / 2.0, height - extent.height)
  }

  /** Radius of the black outline drawn around the captions:
      `int(font_size / 15)`. */
  function OutlineRadius(fontSize: nat): (r: nat)
    ensures 15 * r <= fontSize < 15 * (r + 1)
  {
    fontSize / 15
  }

  /** A caption as drawn: its (upper-cased) text and where it starts. */
  datatype Caption = Caption(text: string, at: Anchor)

  /** The layout `memeGenerate` draws with. */
  datatype Layout = Layout(fontSize: nat, top: Caption, bottom: Caption)

  /** The layout for two measured captions at the chosen size: both
      centred, the top one at the top edge, the bottom one ending at the
      bottom edge; a caption no wider than `width - 20` keeps at least 10
      pixels clear on each side. */
  function ComputeLayout(width: nat, height: nat, fontSize: nat,
                         top: string, topExtent: Extent,
                         bottom: string, bottomExtent: Extent): (l: Layout)
    ensures l.fontSize == fontSize && l.top.text == top && l.bottom.text == bottom
    ensures l.top.at.x + topExtent.width as real / 2.0 == width as real / 2.0
    ensures l.bottom.at.x + bottomExtent.width as real / 2.0 == width as real / 2.0
    ensures l.top.at.y == 0 && l.bottom.at.y + bottomExtent.height == height
    ensures topExtent.width <= width - 20 ==>
      10.0 <= l.top.at.x && l.top.at.x + topExtent.width as real <= width as real - 10.0
    ensures bottomExtent.width <= width - 20 ==>
      10.0 <= l.bottom.at.x && l.bottom.at.x + bottomExtent.width as real <= width as real - 10.0
  {
    Layout(fontSize,
           Caption(top, TopAnchor(width, topExtent)),
           Caption(bottom, BottomAnchor(width, height, bottomExtent)))
  }
}
