/**
 * The drawing half of `memeGenerate`: the image being captioned, the
 * outline pass that draws each caption in black at every offset of a
 * square around its anchor, the final white draw of each caption, and the
 * whole operation put together.
 *
 * Pixels are not modelled: the image records the text draw calls made on
 * it, in order, which is everything the layout decides.
 */
module MemeRender {
  import opened MemeLayout
  import GmCommand

  /** A fill colour as PIL receives it. */
  datatype Colour = Colour(red: int, green: int, blue: int)

  const Black := Colour(0, 0, 0)
  const White := Colour(255, 255, 255)

  /** One `draw.text` call: position, text, fill, and the size of the font. */
  datatype TextDraw = TextDraw(x: real, y: int, text: string, fill: Colour, fontSize: nat)

  /** The opened image with its drawing context: its size and the text
      draws made on it so far. */
  class Canvas {
    const width: nat
    const height: nat
    var drawn: seq<TextDraw>

    constructor (width: nat, height: nat)
      ensures this.width == width && this.height == height
      ensures drawn == []
    {
      this.width := width;
      this.height := height;
      drawn := [];
    }

    /** Draw `text` at (x, y) in `fill` with the font of size `fontSize`. */
    method Text(x: real, y: int, text: string, fill: Colour, fontSize: nat)
      modifies this
      ensures drawn == old(drawn) + [TextDraw(x, y, text, fill, fontSize)]
    {
      drawn := drawn + [TextDraw(x, y, text, fill, fontSize)];
    }
  }

  /** Python's `range(lo, hi)`. */
  function Range(lo: int, hi: int): seq<int>
    decreases hi - lo
  {
    if hi <= lo then [] else Range(lo, hi - 1) + [hi - 1]
  }

  lemma {:induction false} RangeAt(lo: int, hi: int)
    ensures |Range(lo, hi)| == if hi <= lo then 0 else hi - lo
    ensures forall i :: 0 <= i < |Range(lo, hi)| ==> Range(lo, hi)[i] == lo + i
    decreases hi - lo
  {
    if lo < hi {
      RangeAt(lo, hi - 1);
    }
  }

  /** An outline offset (dx, dy) from a caption's anchor. */
  type Offset = (int, int)

  /** The offsets the inner loop visits for one `dx`. */
  function Column(dx: int, dys: seq<int>): (c: seq<Offset>)
    ensures |c| == |dys|
    ensures forall j :: 0 <= j < |dys| ==> c[j] == (dx, dys[j])
  {
    seq(|dys|, j requires 0 <= j < |dys| => (dx, dys[j]))
  }

  /** The offsets the nested outline loops visit, in order: `dx` outer,
      `dy` inner. */
  function Offsets(dxs: seq<int>, dys: seq<int>): seq<Offset>
    decreases |dxs|
  {
    if dxs == [] then [] else Offsets(dxs[..|dxs| - 1], dys) + Column(dxs[|dxs| - 1], dys)
  }

  /** The offsets of the outline of radius `r`: every (dx, dy) with
      -r <= dx, dy <= r. */
  function OutlineOffsets(r: int): seq<Offset> {
    Offsets(Range(-r, r + 1), Range(-r, r + 1))
  }

  /** `c` drawn at its anchor moved by `off`. */
  function Stamp(c: Caption, off: Offset, fill: Colour, fontSize: nat): TextDraw {
    TextDraw(c.at.x + off.0 as real, c.at.y + off.1, c.text, fill, fontSize)
  }

  /** The outline draws for a sequence of offsets: at each offset, the top
      caption then the bottom caption, in black. */
  function OutlineDraws(l: Layout, offs: seq<Offset>): seq<TextDraw>
    decreases |offs|
  {
    if offs == [] then []
    else
      var off := offs[|offs| - 1];
      OutlineDraws(l, offs[..|offs| - 1])
        + [Stamp(l.top, off, Black, l.fontSize), Stamp(l.bottom, off, Black, l.fontSize)]
  }

  /** Everything `memeGenerate` draws for a layout: the black outline at
      every offset of radius R, then each caption in white at its anchor. */
  function RenderLog(l: Layout): seq<TextDraw> {
    OutlineDraws(l, OutlineOffsets(OutlineRadius(l.fontSize)))
      + [TextDraw(l.top.at.x, l.top.at.y, l.top.text, White, l.fontSize),
         TextDraw(l.bottom.at.x, l.bottom.at.y, l.bottom.text, White, l.fontSize)]
  }

  /** Draw 2k is the top caption and draw 2k+1 the bottom caption, both
      moved by the k-th offset. */
  lemma {:induction false} OutlineDrawsAt(l: Layout, offs: seq<Offset>, k: int)
    requires 0 <= k < |offs|
    ensures |OutlineDraws(l, offs)| == 2 * |offs|
    ensures OutlineDraws(l, offs)[2 * k] == Stamp(l.top, offs[k], Black, l.fontSize)
    ensures OutlineDraws(l, offs)[2 * k + 1] == Stamp(l.bottom, offs[k], Black, l.fontSize)
    decreases |offs|
  {
    var init := offs[..|offs| - 1];
    if k < |offs| - 1 {
      OutlineDrawsAt(l, init, k);
    } else if init != [] {
      OutlineDrawsAt(l, init, 0);
    }
  }

  lemma {:induction false} OffsetsLength(dxs: seq<int>, dys: seq<int>)
    ensures |Offsets(dxs, dys)| == |dxs| * |dys|
    decreases |dxs|
  {
    if dxs != [] {
      var n, m := |dxs|, |dys|;
      OffsetsLength(dxs[..n - 1], dys);
      assert (n - 1) * m + m == n * m;
    }
  }

  /** The nested loops visit exactly the pairs of one value from each range. */
  lemma {:induction false} OffsetsMembers(dxs: seq<int>, dys: seq<int>)
    ensures forall off :: off in Offsets(dxs, dys) <==> off.0 in dxs && off.1 in dys
    decreases |dxs|
  {
    if dxs != [] {
      var init, last := dxs[..|dxs| - 1], dxs[|dxs| - 1];
      OffsetsMembers(init, dys);
      assert dxs == init + [last];
      forall off: Offset | off.0 in dxs && off.1 in dys
        ensures off in Offsets(dxs, dys)
      {
        if off.0 == last {
          var j :| 0 <= j < |dys| && dys[j] == off.1;
          assert Column(last, dys)[j] == off;
        }
      }
    }
  }

  predicate Increasing(s: seq<int>) {
    forall i, j :: 0 <= i < j < |s| ==> s[i] < s[j]
  }

  /** `a` comes before `b` with `dx` compared first, then `dy`. */
  predicate LexBefore(a: Offset, b: Offset) {
    a.0 < b.0 || (a.0 == b.0 && a.1 < b.1)
  }

  /** Over increasing ranges the loops visit the offsets in strictly
      increasing (dx, dy) order, so none twice. */
  lemma {:induction false} OffsetsOrdered(dxs: seq<int>, dys: seq<int>)
    requires Increasing(dxs) && Increasing(dys)
    ensures forall i, j :: 0 <= i < j < |Offsets(dxs, dys)| ==>
      LexBefore(Offsets(dxs, dys)[i], Offsets(dxs, dys)[j])
    decreases |dxs|
  {
    if dxs != [] {
      var init, last := dxs[..|dxs| - 1], dxs[|dxs| - 1];
      var before, column := Offsets(init, dys), Column(last, dys);
      OffsetsOrdered(init, dys);
      OffsetsMembers(init, dys);
      forall i | 0 <= i < |before| ensures before[i].0 < last {
        assert before[i] in before;
        var t :| 0 <= t < |init| && init[t] == before[i].0;
      }
    }
  }

  lemma {:induction false} RangeIncreasing(lo: int, hi: int)
    ensures Increasing(Range(lo, hi))
    ensures forall v :: v in Range(lo, hi) <==> lo <= v < hi
  {
    RangeAt(lo, hi);
    forall v | lo <= v < hi ensures v in Range(lo, hi) {
      assert Range(lo, hi)[v - lo] == v;
    }
  }

  /** The outline of radius R has (2R+1)^2 offsets. */
  lemma OutlineOffsetsCount(r: int)
    requires 0 <= r
    ensures |OutlineOffsets(r)| == (2 * r + 1) * (2 * r + 1)
  {
    var rs := Range(-r, r + 1);
    RangeAt(-r, r + 1);
    OffsetsLength(rs, rs);
  }

  /** The outline offsets of radius R are exactly the (dx, dy) with
      -R <= dx, dy <= R. */
  lemma OutlineOffsetsCover(r: int)
    ensures forall off :: off in OutlineOffsets(r) <==> -r <= off.0 <= r && -r <= off.1 <= r
  {
    var rs := Range(-r, r + 1);
    RangeIncreasing(-r, r + 1);
    OffsetsMembers(rs, rs);
  }

  /** The outline offsets are visited in strictly increasing (dx, dy)
      order, so none of them twice. */
  lemma OutlineOffsetsOrdered(r: int)
    ensures forall i, j :: 0 <= i < j < |OutlineOffsets(r)| ==>
      LexBefore(OutlineOffsets(r)[i], OutlineOffsets(r)[j])
  {
    var rs := Range(-r, r + 1);
    RangeIncreasing(-r, r + 1);
    OffsetsOrdered(rs, rs);
  }

  /** The draws `memeGenerate` makes: for each outline offset in turn, the
      top caption then the bottom caption in black moved by that offset;
      then the top caption and the bottom caption in white at their
      anchors. Every draw uses the layout's font. */
  lemma RenderLogShape(l: Layout)
    ensures var offs := OutlineOffsets(OutlineRadius(l.fontSize));
      var log := RenderLog(l);
      && |log| == 2 * |offs| + 2
      && (forall k :: 0 <= k < |offs| ==>
            log[2 * k] == Stamp(l.top, offs[k], Black, l.fontSize) &&
            log[2 * k + 1] == Stamp(l.bottom, offs[k], Black, l.fontSize))
      && log[|log| - 2] == TextDraw(l.top.at.x, l.top.at.y, l.top.text, White, l.fontSize)
      && log[|log| - 1] == TextDraw(l.bottom.at.x, l.bottom.at.y, l.bottom.text, White, l.fontSize)
  {
    var offs := OutlineOffsets(OutlineRadius(l.fontSize));
    OutlineOffsetsCount(OutlineRadius(l.fontSize));
    OutlineDrawsAt(l, offs, 0);
    forall k | 0 <= k < |offs|
      ensures RenderLog(l)[2 * k] == Stamp(l.top, offs[k], Black, l.fontSize)
      ensures RenderLog(l)[2 * k + 1] == Stamp(l.bottom, offs[k], Black, l.fontSize)
    {
      OutlineDrawsAt(l, offs, k);
    }
  }

  /** Every draw is black except the last two, which are white; every draw
      shows one of the two captions with the layout's font. */
  lemma RenderLogColours(l: Layout)
    ensures var log := RenderLog(l);
      && |log| >= 2
      && (forall k :: 0 <= k < |log| - 2 ==> log[k].fill == Black)
      && log[|log| - 2].fill == White && log[|log| - 1].fill == White
      && (forall d :: d in log ==>
            d.fontSize == l.fontSize && (d.text == l.top.text || d.text == l.bottom.text))
  {
    var offs := OutlineOffsets(OutlineRadius(l.fontSize));
    var log := RenderLog(l);
    RenderLogShape(l);
    forall k | 0 <= k < |log| - 2
      ensures log[k].fill == Black
      ensures log[k].fontSize == l.fontSize && (log[k].text == l.top.text || log[k].text == l.bottom.text)
    {
      assert log[2 * (k / 2)].fill == Black;
    }
    forall d | d in log
      ensures d.fontSize == l.fontSize && (d.text == l.top.text || d.text == l.bottom.text)
    {
      var k :| 0 <= k < |log| && log[k] == d;
    }
  }

  /** One pass of the inner outline loop appends the two black draws at
      offset (x, y). */
  lemma OutlineStep(l: Layout, x: int, lo: int, y: int)
    requires lo <= y
    ensures OutlineDraws(l, Column(x, Range(lo, y + 1)))
         == OutlineDraws(l, Column(x, Range(lo, y)))
            + [Stamp(l.top, (x, y), Black, l.fontSize), Stamp(l.bottom, (x, y), Black, l.fontSize)]
  {
    var next := Column(x, Range(lo, y + 1));
    assert next == Column(x, Range(lo, y)) + [(x, y)];
    assert next[..|next| - 1] == Column(x, Range(lo, y));
  }

  /** One pass of the outer outline loop appends the column of `x`. */
  lemma OffsetsStep(lo: int, x: int, dys: seq<int>)
    requires lo <= x
    ensures Offsets(Range(lo, x + 1), dys) == Offsets(Range(lo, x), dys) + Column(x, dys)
  {
  }

  /** Drawing the outline for two runs of offsets, one after the other, is
      drawing it for the joined run. */
  lemma {:induction false} OutlineDrawsAppend(l: Layout, a: seq<Offset>, b: seq<Offset>)
    ensures OutlineDraws(l, a + b) == OutlineDraws(l, a) + OutlineDraws(l, b)
    decreases |b|
  {
    if b == [] {
      assert a + b == a;
    } else {
      var init := b[..|b| - 1];
      OutlineDrawsAppend(l, a, init);
      assert (a + b)[..|a + b| - 1] == a + init;
    }
  }

  /** After the columns left of `x`, drawing the column of `x` gives the
      columns up to and including `x`. */
  lemma OutlineColumnAppended(l: Layout, start: seq<TextDraw>, x: int, r: int)
    requires -r <= x
    ensures start + OutlineDraws(l, Offsets(Range(-r, x), Range(-r, r + 1)))
                  + OutlineDraws(l, Column(x, Range(-r, r + 1)))
         == start + OutlineDraws(l, Offsets(Range(-r, x + 1), Range(-r, r + 1)))
  {
    var dys := Range(-r, r + 1);
    OutlineDrawsAppend(l, Offsets(Range(-r, x), dys), Column(x, dys));
    OffsetsStep(-r, x, dys);
  }

  /** The inner outline loop for one horizontal offset `x`. */
  method DrawOutlineColumn(image: Canvas, l: Layout, x: int, r: int)
    requires 0 <= r
    modifies image
    ensures image.drawn == old(image.drawn) + OutlineDraws(l, Column(x, Range(-r, r + 1)))
  {
    for y := -r to r + 1
      invariant image.drawn == old(image.drawn) + OutlineDraws(l, Column(x, Range(-r, y)))
    {
      image.Text(l.top.at.x + x as real, l.top.at.y + y, l.top.text, Black, l.fontSize);
      image.Text(l.bottom.at.x + x as real, l.bottom.at.y + y, l.bottom.text, Black, l.fontSize);
      OutlineStep(l, x, -r, y);
    }
  }

  /** The nested outline loops for radius `r`. */
  method DrawOutline(image: Canvas, l: Layout, r: int)
    requires 0 <= r
    modifies image
    ensures image.drawn == old(image.drawn) + OutlineDraws(l, OutlineOffsets(r))
  {
    ghost var start := image.drawn;
    ghost var dys := Range(-r, r + 1);
    for x := -r to r + 1
      invariant image.drawn == start + OutlineDraws(l, Offsets(Range(-r, x), dys))
    {
      DrawOutlineColumn(image, l, x, r);
      OutlineColumnAppended(l, start, x, r);
    }
  }

  /** The drawing part of `memeGenerate`: the outline pass, then the two
      white draws. */
  method DrawCaptions(image: Canvas, l: Layout)
    modifies image
    ensures image.drawn == old(image.drawn) + RenderLog(l)
  {
    DrawOutline(image, l, OutlineRadius(l.fontSize));
    image.Text(l.top.at.x, l.top.at.y, l.top.text, White, l.fontSize);
    image.Text(l.bottom.at.x, l.bottom.at.y, l.bottom.text, White, l.fontSize);
  }

  /** `memeGenerate` on an opened image: upper-case both captions, search
      the font size, place the captions and draw them. Returns the name the
      result is saved under, the layout used and the measurements made. */
  method MemeGenerate(measure: Measure, image: Canvas, inFile: string, topText: string, bottomText: string)
    returns (outFile: string, layout: Layout, probes: seq<Probe>)
    requires exists s :: 1 <= s <= StartSize(image.height) && Fits(measure, image.width, Upper(topText), Upper(bottomText), s)
    modifies image
    ensures outFile == "out_" + inFile
    ensures layout.top.text == Upper(topText) && layout.bottom.text == Upper(bottomText)
    ensures 1 <= layout.fontSize <= StartSize(image.height)
    ensures Fits(measure, image.width, layout.top.text, layout.bottom.text, layout.fontSize)
    ensures forall s :: layout.fontSize < s <= StartSize(image.height) ==>
      !Fits(measure, image.width, layout.top.text, layout.bottom.text, s)
    ensures layout == ComputeLayout(image.width, image.height, layout.fontSize,
                                    layout.top.text, measure(layout.top.text, layout.fontSize),
                                    layout.bottom.text, measure(layout.bottom.text, layout.fontSize))
    ensures probes == SearchProbes(layout.top.text, layout.bottom.text, StartSize(image.height), layout.fontSize)
    ensures image.drawn == old(image.drawn) + RenderLog(layout)
  {
    var top := Upper(topText);
    var bottom := Upper(bottomText);
    outFile := GmCommand.OutputName(inFile, GmCommand.None);
    var size, topExtent, bottomExtent;
    size, topExtent, bottomExtent, probes := FindFontSize(measure, image.width, image.height, top, bottom);
    layout := ComputeLayout(image.width, image.height, size, top, topExtent, bottom, bottomExtent);
    DrawCaptions(image, layout);
  }
}
