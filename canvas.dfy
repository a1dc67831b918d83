/** Frame geometry: the output canvas for an aspect ratio and resolution tier,
    and the letterboxed placement of a clip inside it
    (VideoProcessor._resize_clip, _get_target_dimensions and
    _get_resolution_dimensions, music_video_maker.py lines 215-265). */
module Canvas {

  datatype Aspect = Widescreen | Square | Portrait   // "16:9", "1:1", "9:16"
  datatype Tier = Tier1080 | Tier720 | Tier480       // "1080p", "720p", "480p"
  datatype Size = Size(width: int, height: int)

  /** The aspect setting is compared as text; anything other than "16:9" and
      "1:1" falls through to 9:16. */
  function ParseAspect(s: string): (a: Aspect)
    ensures a == Widescreen <==> s == "16:9"
    ensures a == Square <==> s == "1:1"
  {
    if s == "16:9" then Widescreen else if s == "1:1" then Square else Portrait
  }

  /** Likewise for the tier: anything other than "1080p" and "720p" is 480p. */
  function ParseTier(s: string): (t: Tier)
    ensures t == Tier1080 <==> s == "1080p"
    ensures t == Tier720 <==> s == "720p"
  {
    if s == "1080p" then Tier1080 else if s == "720p" then Tier720 else Tier480
  }

  /** `_get_resolution_dimensions`: a landscape size, wider than tall but
      less than twice as wide. */
  function TierSize(t: Tier): (s: Size)
    ensures 0 < s.height < s.width < 2 * s.height
  {
    match t
    case Tier1080 => Size(1920, 1080)
    case Tier720 => Size(1280, 720)
    case Tier480 => Size(854, 480)
  }

  /** `_get_target_dimensions`: a positive canvas whose orientation is the
      aspect's: landscape, square or upright. */
  function CanvasSize(a: Aspect, t: Tier): (c: Size)
    ensures c.width > 0 && c.height > 0
    ensures a == Widescreen ==> c.width > c.height
    ensures a == Square ==> c.width == c.height
    ensures a == Portrait ==> c.width < c.height
  {
    var base := TierSize(t);
    match a
    case Widescreen => base
    case Square =>
      var side := if base.width < base.height then base.width else base.height;
      Size(side, side)
    case Portrait => Size(base.height, base.width)
  }

  /** How the nine canvases relate: 16:9 is landscape, 9:16 is the same canvas
      turned on its side, and 1:1 is the square on the short side of 16:9. */
  lemma CanvasShapes(t: Tier)
    ensures var wide := CanvasSize(Widescreen, t);
      && 0 < wide.height < wide.width
      && CanvasSize(Portrait, t) == Size(wide.height, wide.width)
      && CanvasSize(Square, t) == Size(wide.height, wide.height)
  {
  }

  /** The nine canvas sizes. */
  lemma CanvasTable()
    ensures CanvasSize(Widescreen, Tier1080) == Size(1920, 1080)
    ensures CanvasSize(Square, Tier1080) == Size(1080, 1080)
    ensures CanvasSize(Portrait, Tier1080) == Size(1080, 1920)
    ensures CanvasSize(Widescreen, Tier720) == Size(1280, 720)
    ensures CanvasSize(Square, Tier720) == Size(720, 720)
    ensures CanvasSize(Portrait, Tier720) == Size(720, 1280)
    ensures CanvasSize(Widescreen, Tier480) == Size(854, 480)
    ensures CanvasSize(Square, Tier480) == Size(480, 480)
    ensures CanvasSize(Portrait, Tier480) == Size(480, 854)
  {
  }

  /** Where a resized clip sits on the canvas: offsets and resized size. */
  datatype Frame = Frame(canvas: Size, x: int, y: int, width: int, height: int)

  /** `min(target_w / w, target_h / h)`: the largest uniform scale at which a
      w-by-h frame fits the canvas. */
  function FitScale(canvas: Size, w: int, h: int): (s: real)
    requires canvas.width > 0 && canvas.height > 0 && w > 0 && h > 0
    ensures s > 0.0
    ensures w as real * s <= canvas.width as real && h as real * s <= canvas.height as real
    ensures w as real * s == canvas.width as real || h as real * s == canvas.height as real
  {
    var ws := canvas.width as real / w as real;
    var hs := canvas.height as real / h as real;
    assert w as real * ws == canvas.width as real;
    assert h as real * hs == canvas.height as real;
    if ws < hs then
      assert h as real * ws <= h as real * hs;
      ws
    else
      assert w as real * hs <= w as real * ws;
      hs
  }

  /** Lines 226-239 for a frame already scaled to `sw` by `sh` (real
      pixels): truncate to whole pixels and centre with floor-halved margins. */
  function Place(canvas: Size, sw: real, sh: real): (f: Frame)
    requires 0.0 <= sw <= canvas.width as real && 0.0 <= sh <= canvas.height as real
    ensures f.canvas == canvas
    ensures 0 <= f.x && f.x + f.width <= canvas.width
    ensures 0 <= f.y && f.y + f.height <= canvas.height
    ensures sw == canvas.width as real ==> f.width == canvas.width
    ensures sh == canvas.height as real ==> f.height == canvas.height
    ensures 0 <= (canvas.width - f.width - f.x) - f.x <= 1
    ensures 0 <= (canvas.height - f.height - f.y) - f.y <= 1
    ensures f.width as real <= sw < f.width as real + 1.0
    ensures f.height as real <= sh < f.height as real + 1.0
  {
    var nw := sw.Floor;
    var nh := sh.Floor;
    Frame(canvas, (canvas.width - nw) / 2, (canvas.height - nh) / 2, nw, nh)
  }

  /** Lines 219-239: scale by FitScale, truncate the new size to whole pixels,
      and centre it. The frame always lies inside the canvas, fills it along
      one axis, keeps the clip's proportions up to the truncation, and its two
      margins on each axis differ by at most one pixel. */
  function FitFrame(canvas: Size, w: int, h: int): (f: Frame)
    requires canvas.width > 0 && canvas.height > 0 && w > 0 && h > 0
    ensures f.canvas == canvas
    ensures 0 <= f.x && f.x + f.width <= canvas.width
    ensures 0 <= f.y && f.y + f.height <= canvas.height
    ensures f.width == canvas.width || f.height == canvas.height
    ensures 0 <= (canvas.width - f.width - f.x) - f.x <= 1
    ensures 0 <= (canvas.height - f.height - f.y) - f.y <= 1
    ensures var s := FitScale(canvas, w, h);
      && f.width as real <= w as real * s < f.width as real + 1.0
      && f.height as real <= h as real * s < f.height as real + 1.0
  {
    var s := FitScale(canvas, w, h);
    Place(canvas, w as real * s, h as real * s)
  }

  /** A 1920x1080 clip on the 720p 9:16 canvas: scaled to 720x405 and
      centred 437 pixels down. */
  lemma FitFrameExample()
    ensures FitFrame(Size(720, 1280), 1920, 1080) == Frame(Size(720, 1280), 0, 437, 720, 405)
  {
    assert FitScale(Size(720, 1280), 1920, 1080) == 0.375;
    assert (1920.0 * 0.375).Floor == 720;
    assert (1080.0 * 0.375).Floor == 405;
  }
}
