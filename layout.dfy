/** Placement of the clip inside the 1080x1920 vertical canvas, shared by
    `edit_clip` (clip_edit_process.py) and `process_hit`
    (download_and_process.py): the content width, the scaled height, the top
    of the video area, the title line, the rounded-corner rectangle and
    radius, and the logo box. All integer arithmetic with clamps; the one
    rounding (`round()` on the scaled height) is taken on exact rationals. */
module Layout {

  import opened Strings

  const CanvasW := 1080
  const CanvasH := 1920

  /** Video top used when the scaled height is unknown. */
  const DefaultTop := 200
  /** Gap between title and video when none is given. */
  const DefaultGap := 80
  /** The title never goes above this line. */
  const MinTitleY := 6

  function Max(a: int, b: int): int { if a >= b then a else b }
  function Min(a: int, b: int): int { if a <= b then a else b }

  /** Python's `max(lo, min(hi, v))`. */
  function Clamp(v: int, lo: int, hi: int): (r: int)
    ensures lo <= hi ==> lo <= r <= hi
    ensures lo <= v <= hi ==> r == v
    ensures v < lo <= hi ==> r == lo
    ensures lo <= hi < v ==> r == hi
  {
    Max(lo, Min(hi, v))
  }

  /** Width of the video inside the canvas after the side margins. */
  function TargetWidth(sideMargin: int): (w: int)
    ensures 16 <= w <= CanvasW
    ensures 0 <= sideMargin <= 532 ==> w == CanvasW - 2 * sideMargin
    ensures sideMargin <= 0 ==> w == CanvasW
    ensures sideMargin >= 532 ==> w == 16
  {
    Max(16, CanvasW - 2 * Max(0, sideMargin))
  }

  /** Left edge of the video, centring it horizontally. */
  function VideoLeft(width: int): int
  {
    (CanvasW - width) / 2
  }

  lemma VideoLeftRange(sideMargin: int)
    ensures 0 <= VideoLeft(TargetWidth(sideMargin)) <= 532
    ensures 2 * VideoLeft(TargetWidth(sideMargin)) + TargetWidth(sideMargin) == CanvasW
  {
  }

  /** Python's `round()` on an exact rational: nearest integer, ties to even. */
  function RoundHalfEven(x: real): (r: int)
    ensures x - 0.5 <= r as real <= x + 0.5
    ensures (r as real == x - 0.5 || r as real == x + 0.5) ==> r % 2 == 0
  {
    var f := (x + 0.5).Floor;
    if f as real == x + 0.5 && f % 2 == 1 then f - 1 else f
  }

  /** The height after `scale=width:-2` as the planner estimates it:
      `round(orig_h * (width / orig_w))`; none when no size was probed or the
      probed width is zero (the division error is caught). */
  function ScaledHeight(size: Option<(int, int)>, width: int): (r: Option<int>)
    ensures r.Some? <==> size.Some? && size.value.0 != 0
    ensures r.Some? ==> var exact := size.value.1 as real * (width as real / size.value.0 as real);
      exact - 0.5 <= r.value as real <= exact + 0.5 &&
      ((r.value as real == exact - 0.5 || r.value as real == exact + 0.5) ==> r.value % 2 == 0)
  {
    if size.None? || size.value.0 == 0 then None
    else Some(RoundHalfEven(size.value.1 as real * (width as real / size.value.0 as real)))
  }

  /** The scaled height when it is known and positive. */
  predicate Known(scaled: Option<int>) { scaled.Some? && scaled.value > 0 }

  /** Top of the video area: vertically centred, or 200 when the height is unknown. */
  function VideoTop(scaled: Option<int>): int
  {
    if Known(scaled) then (CanvasH - scaled.value) / 2 else DefaultTop
  }

  /** The video is centred: equal space above and below, up to one pixel. */
  lemma VideoTopCentres(scaled: Option<int>)
    requires Known(scaled)
    ensures var top := VideoTop(scaled);
      0 <= CanvasH - (2 * top + scaled.value) <= 1
  {
  }

  /** Absolute y of the title: `gap` above the video, never above line 6. */
  function TitleY(top: int, gap: Option<int>): (y: int)
    ensures y >= MinTitleY && y >= top - (if gap.Some? then gap.value else DefaultGap)
    ensures y == MinTitleY || y == top - (if gap.Some? then gap.value else DefaultGap)
  {
    Max(MinTitleY, top - (if gap.Some? then gap.value else DefaultGap))
  }

  /** A 1920x1080 source with side margin 20 and gap 80: width 1040, scaled
      height 585, top 667, title line 587. */
  lemma LandscapeExample()
    ensures TargetWidth(20) == 1040
    ensures ScaledHeight(Some((1920, 1080)), 1040) == Some(585)
    ensures VideoTop(Some(585)) == 667
    ensures TitleY(667, Some(80)) == 587
  {
    assert 1080.0 * (1040.0 / 1920.0) == 585.0;
  }

  // ---------------------------------------------------------------------
  // Rounded corners

  /** The video rectangle in canvas pixels, right and bottom edges exclusive. */
  datatype Rect = Rect(x0: int, y0: int, x1: int, y1: int)

  /** The rectangle of the video area, clamped into the canvas; `lowEdge` is
      the lower clamp of the right and bottom edges (1 in `edit_clip`, 0 in
      `process_hit`). */
  function CornerRect(left: int, top: int, width: int, scaled: int, lowEdge: int): (r: Rect)
    requires lowEdge in {0, 1}
    ensures 0 <= r.x0 <= CanvasW - 1 && 0 <= r.y0 <= CanvasH - 1
    ensures lowEdge <= r.x1 <= CanvasW && lowEdge <= r.y1 <= CanvasH
  {
    Rect(Clamp(left, 0, CanvasW - 1), Clamp(top, 0, CanvasH - 1),
         Clamp(left + width, lowEdge, CanvasW), Clamp(top + scaled, lowEdge, CanvasH))
  }

  /** The corner radius actually drawn: the requested one, clamped to half the
      shorter side, and 0 when that half is not positive. */
  function RadiusUse(cornerRadius: int, r: Rect): (radius: int)
    ensures radius >= 0
    ensures radius > 0 ==> 2 * radius <= r.x1 - r.x0 && 2 * radius <= r.y1 - r.y0 && radius <= cornerRadius
    ensures 0 < cornerRadius && 2 * cornerRadius <= r.x1 - r.x0 && 2 * cornerRadius <= r.y1 - r.y0 ==> radius == cornerRadius
    ensures 0 < cornerRadius && 2 <= r.x1 - r.x0 && 2 <= r.y1 - r.y0 ==>
      radius == Min(cornerRadius, Min((r.x1 - r.x0) / 2, (r.y1 - r.y0) / 2))
  {
    var maxRadius := Min((r.x1 - r.x0) / 2, (r.y1 - r.y0) / 2);
    if maxRadius > 0 then Max(0, Min(cornerRadius, maxRadius)) else 0
  }

  /** A full-width clip 400 high asked for radius 9999 gets radius 200. */
  lemma RadiusExample()
    ensures CornerRect(VideoLeft(1080), VideoTop(Some(400)), 1080, 400, 1) == Rect(0, 760, 1080, 1160)
    ensures RadiusUse(9999, Rect(0, 760, 1080, 1160)) == 200
  {
  }

  /** Inside the canvas the rectangle is exactly the video area. */
  lemma CornerRectInside(left: int, top: int, width: int, scaled: int, lowEdge: int)
    requires lowEdge in {0, 1}
    requires 0 <= left && left + width <= CanvasW && 0 < width
    requires 0 <= top && top + scaled <= CanvasH && 0 < scaled
    ensures CornerRect(left, top, width, scaled, lowEdge) == Rect(left, top, left + width, top + scaled)
  {
  }

  // ---------------------------------------------------------------------
  // Logo

  /** The logo width asked of the logo preparation: a fraction of the video
      width, at least 8 pixels; no logo when the ratio is not positive. */
  function LogoWidth(width: int, ratio: real): (w: Option<int>)
    ensures w.Some? <==> ratio > 0.0
    ensures w.Some? ==> w.value >= 8
    ensures w.Some? && width as real * ratio <= 8.5 ==> w.value == 8
    ensures w.Some? && width as real * ratio > 8.5 ==>
      var x := width as real * ratio;
      x - 0.5 <= w.value as real <= x + 0.5 &&
      ((w.value as real == x - 0.5 || w.value as real == x + 0.5) ==> w.value % 2 == 0)
  {
    if ratio > 0.0 then Some(Max(8, RoundHalfEven(width as real * ratio))) else None
  }

  /** Where the logo overlay goes: `margin` pixels in from the video area's
      top-left corner, a negative margin counting as 0. */
  function LogoPos(width: int, top: int, margin: int): (p: (int, int))
    ensures p.0 >= VideoLeft(width) && p.1 >= top
    ensures p.0 - VideoLeft(width) == p.1 - top
    ensures margin >= 0 ==> p == (VideoLeft(width) + margin, top + margin)
    ensures margin < 0 ==> p == (VideoLeft(width), top)
  {
    (VideoLeft(width) + Max(0, margin), top + Max(0, margin))
  }
}
