/**
 * The resize geometry of `process`: from the source image's size and the
 * target width, height and mode, the rectangles handed to the resampling
 * blit (a rectangle of the source drawn onto a new canvas the size of the
 * destination rectangle).
 *
 * The source compares the float aspect ratios sw/sh and W/H and truncates
 * float products with `(int)`. Here the comparison is the exact
 * cross-multiplication `sw * H > W * sh`, and each truncation is an integer
 * division whose numerator is non-negative in its branch, so Dafny's
 * Euclidean `/` agrees with truncation toward zero.
 */
module Geometry {

  /** The three resize modes; the string names are decoded in module Resizer. */
  datatype Mode = Cover | Shrink | Stretch

  datatype Rect = Rect(x: int, y: int, width: int, height: int)

  /** One resampling blit: `source` of the source image is drawn onto `dest` of a new canvas of dest's size. */
  datatype Blit = Blit(source: Rect, dest: Rect)

  /** The source is relatively wider than the target box: sw/sh > W/H. */
  predicate SourceWider(sw: int, sh: int, width: int, height: int) {
    sw * height > width * sh
  }

  /** `r` lies inside a `sw` by `sh` image and is not empty. */
  predicate Inside(r: Rect, sw: int, sh: int) {
    0 <= r.x && 0 <= r.y && 1 <= r.width && 1 <= r.height && r.x + r.width <= sw && r.y + r.height <= sh
  }

  // ----- Integer division facts -----

  /** The quotient of a non-negative numerator brackets the exact ratio. */
  lemma {:induction false} DivBracket(a: int, b: int)
    requires a >= 0 && b > 0
    ensures 0 <= a / b
    ensures (a / b) * b <= a < (a / b + 1) * b
  {
  }

  lemma {:induction false} DivAtLeast(a: int, b: int, c: int)
    requires a >= 0 && b > 0 && a >= c * b
    ensures a / b >= c
  {
    DivBracket(a, b);
  }

  lemma {:induction false} DivBelow(a: int, b: int, c: int)
    requires a >= 0 && b > 0 && a < c * b
    ensures a / b < c
  {
    DivBracket(a, b);
  }

  /**
   * The geometry of `process` as written, for each mode, with the aspect of
   * ImageResizer.php line 147 taken from the configuration's width and height.
   */
  function Plan(sw: int, sh: int, mode: Mode, width: int, height: int): (b: Blit)
    requires sw > 0 && sh > 0 && width > 0 && height > 0
    ensures b.source.width == sw && b.source.height == sh
    ensures b.dest.x == 0 && b.dest.y == 0
    ensures 0 <= b.source.x && 0 <= b.source.y
  {
    var whole := Rect(0, 0, sw, sh);
    match mode
    case Cover =>
      if SourceWider(sw, sh, width, height) then
        DivBracket(height * sw - width * sh, 2 * sh);
        Blit(Rect((height * sw - width * sh) / (2 * sh), 0, sw, sh), Rect(0, 0, 0, height))
      else
        DivBracket(width * sh - height * sw, 2 * sw);
        Blit(Rect(0, (width * sh - height * sw) / (2 * sw), sw, sh), Rect(0, 0, width, 0))
    case Shrink =>
      if SourceWider(sw, sh, width, height) then
        Blit(whole, Rect(0, 0, (height * sw) / sh, height))
      else
        Blit(whole, Rect(0, 0, width, (width * sh) / sw))
    case Stretch =>
      Blit(whole, Rect(0, 0, width, height))
  }

  /** Stretch maps the whole source onto the whole target box, whatever the source's aspect. */
  lemma StretchIgnoresAspect(sw: int, sh: int, width: int, height: int)
    requires sw > 0 && sh > 0 && width > 0 && height > 0
    ensures Plan(sw, sh, Stretch, width, height) == Blit(Rect(0, 0, sw, sh), Rect(0, 0, width, height))
  {
  }

  /**
   * Shrink fixes the dimension on which the source is relatively narrower to
   * its target and scales the other by the source's aspect ratio, rounding
   * down: the result keeps the source's aspect to within one pixel, and the
   * scaled dimension is never smaller than its target.
   */
  lemma ShrinkScalesToOneTarget(sw: int, sh: int, width: int, height: int)
    requires sw > 0 && sh > 0 && width > 0 && height > 0
    ensures var d := Plan(sw, sh, Shrink, width, height).dest;
      if SourceWider(sw, sh, width, height) then
        && d.height == height && d.width >= width
        && d.width * sh <= sw * height < (d.width + 1) * sh
      else
        && d.width == width && d.height >= height
        && d.height * sw <= sh * width < (d.height + 1) * sw
  {
    if SourceWider(sw, sh, width, height) {
      DivBracket(height * sw, sh);
      DivAtLeast(height * sw, sh, width);
    } else {
      DivBracket(width * sh, sw);
      DivAtLeast(width * sh, sw, height);
    }
  }

  /** When the aspects are equal, shrink produces exactly the target box. */
  lemma ShrinkEqualAspect(sw: int, sh: int, width: int, height: int)
    requires sw > 0 && sh > 0 && width > 0 && height > 0
    requires sw * height == width * sh
    ensures Plan(sw, sh, Shrink, width, height).dest == Rect(0, 0, width, height)
  {
    DivAtLeast(width * sh, sw, height);
    DivBelow(width * sh, sw, height + 1);
  }

  /**
   * Cover crops along the axis on which the source is relatively longer:
   * the offset on that axis is half the excess of the scaled source over the
   * target, rounded down and measured in destination pixels; the offset on
   * the other axis is 0. Of the destination size only the dimension on the
   * fixed axis is set.
   */
  lemma CoverCropOffset(sw: int, sh: int, width: int, height: int)
    requires sw > 0 && sh > 0 && width > 0 && height > 0
    ensures var b := Plan(sw, sh, Cover, width, height);
      if SourceWider(sw, sh, width, height) then
        && b.source.y == 0 && b.dest.height == height && b.dest.width == 0
        && 2 * b.source.x * sh <= height * sw - width * sh < 2 * (b.source.x + 1) * sh
      else
        && b.source.x == 0 && b.dest.width == width && b.dest.height == 0
        && 2 * b.source.y * sw <= width * sh - height * sw < 2 * (b.source.y + 1) * sw
  {
    if SourceWider(sw, sh, width, height) {
      DivBracket(height * sw - width * sh, 2 * sh);
    } else {
      DivBracket(width * sh - height * sw, 2 * sw);
    }
  }

  /** When the aspects are equal, cover needs no crop: both offsets are 0. */
  lemma CoverEqualAspect(sw: int, sh: int, width: int, height: int)
    requires sw > 0 && sh > 0 && width > 0 && height > 0
    requires sw * height == width * sh
    ensures Plan(sw, sh, Cover, width, height).source == Rect(0, 0, sw, sh)
  {
  }

  // ----- Where the geometry as written breaks its stated intent -----

  /**
   * Cover is meant to fill the target box, but as written one destination
   * dimension is never assigned and stays 0, so the canvas is empty.
   */
  lemma CoverLeavesCanvasEmpty(sw: int, sh: int, width: int, height: int)
    requires sw > 0 && sh > 0 && width > 0 && height > 0
    ensures var d := Plan(sw, sh, Cover, width, height).dest;
      (d.width == 0) != (d.height == 0)
  {
  }

  /**
   * As written, cover moves the sampling rectangle by the crop offset but
   * keeps its full size, so whenever there is an offset the rectangle runs
   * past the source's edge.
   */
  lemma CoverSamplesPastEdge(sw: int, sh: int, width: int, height: int)
    requires sw > 0 && sh > 0 && width > 0 && height > 0
    ensures var s := Plan(sw, sh, Cover, width, height).source;
      (s.x > 0 ==> s.x + s.width > sw) && (s.y > 0 ==> s.y + s.height > sh)
      && (Inside(s, sw, sh) <==> s.x == 0 && s.y == 0)
  {
  }

  /**
   * Shrink is documented to fit within the target box, but as written both
   * resulting dimensions are at least their targets.
   */
  lemma ShrinkCoversBox(sw: int, sh: int, width: int, height: int)
    requires sw > 0 && sh > 0 && width > 0 && height > 0
    ensures var d := Plan(sw, sh, Shrink, width, height).dest;
      d.width >= width && d.height >= height
      && (d.width <= width && d.height <= height <==> d.width == width && d.height == height)
  {
    ShrinkScalesToOneTarget(sw, sh, width, height);
  }

  /**
   * A 1000 by 500 source into a 300 by 300 box, in each mode, as written,
   * with the aspect of ImageResizer.php line 147 taken from the configuration.
   */
  lemma WideSourceIntoSquare()
    ensures Plan(1000, 500, Cover, 300, 300) == Blit(Rect(150, 0, 1000, 500), Rect(0, 0, 0, 300))
    ensures Plan(1000, 500, Shrink, 300, 300) == Blit(Rect(0, 0, 1000, 500), Rect(0, 0, 600, 300))
    ensures Plan(1000, 500, Stretch, 300, 300) == Blit(Rect(0, 0, 1000, 500), Rect(0, 0, 300, 300))
  {
  }

  // ----- The geometry as evidently intended -----

  function Max1(n: int): int {
    if n < 1 then 1 else n
  }

  /**
   * The intended geometry: cover fills the whole target box from a centred
   * crop of the source whose aspect matches the box; shrink fits the source
   * within the box; stretch is unchanged.
   */
  function IntendedPlan(sw: int, sh: int, mode: Mode, width: int, height: int): (b: Blit)
    requires sw > 0 && sh > 0 && width > 0 && height > 0
    ensures Inside(b.source, sw, sh)
    ensures b.dest.x == 0 && b.dest.y == 0 && b.dest.width >= 1 && b.dest.height >= 1
    ensures mode != Shrink ==> b.dest.width == width && b.dest.height == height
    ensures mode == Shrink ==> b.dest.width <= width && b.dest.height <= height
    ensures mode == Shrink ==> b.dest.width == width || b.dest.height == height
    ensures mode != Cover ==> b.source == Rect(0, 0, sw, sh)
  {
    var whole := Rect(0, 0, sw, sh);
    match mode
    case Cover =>
      if SourceWider(sw, sh, width, height) then
        var cropWidth := Max1((width * sh) / height);
        DivBracket(width * sh, height);
        DivBelow(width * sh, height, sw);
        Blit(Rect((sw - cropWidth) / 2, 0, cropWidth, sh), Rect(0, 0, width, height))
      else
        var cropHeight := Max1((height * sw) / width);
        DivBracket(height * sw, width);
        DivBelow(height * sw, width, sh + 1);
        Blit(Rect(0, (sh - cropHeight) / 2, sw, cropHeight), Rect(0, 0, width, height))
    case Shrink =>
      if SourceWider(sw, sh, width, height) then
        DivBracket(width * sh, sw);
        DivBelow(width * sh, sw, height);
        Blit(whole, Rect(0, 0, width, Max1((width * sh) / sw)))
      else
        DivBracket(height * sw, sh);
        DivBelow(height * sw, sh, width + 1);
        Blit(whole, Rect(0, 0, Max1((height * sw) / sh), height))
    case Stretch =>
      Blit(whole, Rect(0, 0, width, height))
  }

  /**
   * The intended cover crop keeps the source's full extent on one axis and,
   * on the other, takes the largest length whose aspect does not exceed the
   * target's (at least one pixel); the crop is centred.
   */
  lemma IntendedCoverMatchesAspect(sw: int, sh: int, width: int, height: int)
    requires sw > 0 && sh > 0 && width > 0 && height > 0
    ensures var s := IntendedPlan(sw, sh, Cover, width, height).source;
      if SourceWider(sw, sh, width, height) then
        && s.y == 0 && s.height == sh
        && (s.width * height <= width * sh < (s.width + 1) * height || s.width == 1)
        && 0 <= (sw - s.width) - 2 * s.x <= 1
      else
        && s.x == 0 && s.width == sw
        && (s.height * width <= height * sw < (s.height + 1) * width || s.height == 1)
        && 0 <= (sh - s.height) - 2 * s.y <= 1
  {
    if SourceWider(sw, sh, width, height) {
      DivBracket(width * sh, height);
    } else {
      DivBracket(height * sw, width);
    }
  }

  /**
   * The intended shrink keeps the source's aspect: the side on which the
   * source is relatively longer takes its target, and the other is scaled
   * by the source's aspect and rounded down (to at least one pixel).
   */
  lemma IntendedShrinkKeepsAspect(sw: int, sh: int, width: int, height: int)
    requires sw > 0 && sh > 0 && width > 0 && height > 0
    ensures var d := IntendedPlan(sw, sh, Shrink, width, height).dest;
      if SourceWider(sw, sh, width, height) then
        && d.width == width
        && (d.height * sw <= width * sh < (d.height + 1) * sw || d.height == 1)
      else
        && d.height == height
        && (d.width * sh <= height * sw < (d.width + 1) * sh || d.width == 1)
  {
    if SourceWider(sw, sh, width, height) {
      DivBracket(width * sh, sw);
    } else {
      DivBracket(height * sw, sh);
    }
  }

  /** With equal aspects the intended cover samples the whole source. */
  lemma IntendedCoverEqualAspect(sw: int, sh: int, width: int, height: int)
    requires sw > 0 && sh > 0 && width > 0 && height > 0
    requires sw * height == width * sh
    ensures IntendedPlan(sw, sh, Cover, width, height).source == Rect(0, 0, sw, sh)
  {
    DivAtLeast(height * sw, width, sh);
    DivBelow(height * sw, width, sh + 1);
  }
}
