/** The overlay images for rounded video corners (mask_utils.py): colour
    parsing, the normalised window rectangle, and the alpha channel of the
    rounded mask and of the rounded frame, carved in place like Pillow's
    `rounded_rectangle` fill. Which pixels near a rounded corner belong to the
    shape is Pillow's rasterisation, passed in as `inShape`. */
module MaskUtils {

  import opened Strings

  datatype Rgba = Rgba(r: int, g: int, b: int, a: int)

  // ---------------------------------------------------------------------
  // Colours

  predicate IsHexDigit(c: char) { IsDigit(c) || 'a' <= c <= 'f' }

  function HexValue(c: char): nat
    requires IsHexDigit(c)
  {
    if IsDigit(c) then DigitValue(c) else c as nat - 'a' as nat + 10
  }

  /** Python's `c.lower()` on an ASCII letter; other characters are kept. */
  function LowerChar(c: char): char
  {
    if 'A' <= c <= 'Z' then (c as int + 32) as char else c
  }

  /** Python's `s.lower()` on ASCII letters. */
  function Lower(s: string): (r: string)
    ensures |r| == |s|
  {
    if |s| == 0 then "" else [LowerChar(s[0])] + Lower(s[1..])
  }

  /** Lowering works character by character. */
  lemma {:induction false} LowerPointwise(s: string)
    ensures forall k :: 0 <= k < |s| ==> Lower(s)[k] == LowerChar(s[k])
  {
    if |s| > 0 {
      LowerPointwise(s[1..]);
    }
  }

  /** Lowering twice is lowering once, and it neither makes nor removes whitespace. */
  lemma LowerIdempotent(s: string)
    ensures Lower(Lower(s)) == Lower(s)
    ensures forall k :: 0 <= k < |s| ==> (IsSpace(Lower(s)[k]) <==> IsSpace(s[k]))
  {
    LowerPointwise(s);
    LowerPointwise(Lower(s));
    forall k | 0 <= k < |s|
      ensures Lower(Lower(s))[k] == Lower(s)[k]
      ensures IsSpace(Lower(s)[k]) <==> IsSpace(s[k])
    {
      LowerCharFacts(s[k]);
    }
  }

  lemma LowerCharFacts(c: char)
    ensures LowerChar(LowerChar(c)) == LowerChar(c)
    ensures IsSpace(LowerChar(c)) <==> IsSpace(c)
  {
  }

  /** The text `_parse_rgba` compares: stripped of surrounding whitespace and
      lower-cased. Normalising it again changes nothing. */
  lemma NormaliseIdempotent(colorStr: string)
    ensures Lower(StripSpace(Lower(StripSpace(colorStr)))) == Lower(StripSpace(colorStr))
  {
    var x := StripSpace(colorStr);
    var y := Lower(x);
    LowerIdempotent(x);
    if |y| > 0 {
      assert !IsSpace(x[0]) && !IsSpace(x[|x| - 1]);
    }
    StripKeeps(y, IsSpace);
  }

  /** Python's `int(p, 16)` on a two-character string of lower-case text:
      surrounding whitespace and one sign are allowed; anything else raises (`None`). */
  function HexPair(p: string): Option<int>
    requires |p| == 2
  {
    if IsHexDigit(p[0]) && IsHexDigit(p[1]) then Some(16 * HexValue(p[0]) + HexValue(p[1]))
    else if p[0] == '+' && IsHexDigit(p[1]) then Some(HexValue(p[1]))
    else if p[0] == '-' && IsHexDigit(p[1]) then Some(0 - HexValue(p[1]))
    else if IsSpace(p[0]) && IsHexDigit(p[1]) then Some(HexValue(p[1]))
    else if IsHexDigit(p[0]) && IsSpace(p[1]) then Some(HexValue(p[0]))
    else None
  }

  /** `_parse_rgba`: `#rrggbb`, a few names for black and white, black otherwise;
      the alpha is passed through. `None` where a bad `#` form makes `int` raise. */
  function ParseRgba(colorStr: string, alpha: int): Option<Rgba>
  {
    if colorStr == "" then Some(Rgba(0, 0, 0, alpha))
    else
      var s := Lower(StripSpace(colorStr));
      if |s| == 7 && s[0] == '#' then
        var r, g, b := HexPair(s[1..3]), HexPair(s[3..5]), HexPair(s[5..7]);
        if r.Some? && g.Some? && b.Some? then Some(Rgba(r.value, g.value, b.value, alpha)) else None
      else if s in {"black", "bk", "0", "000000"} then Some(Rgba(0, 0, 0, alpha))
      else if s in {"white", "fff", "ffffff", "1"} then Some(Rgba(255, 255, 255, alpha))
      else Some(Rgba(0, 0, 0, alpha))
  }

  function HexChar(d: nat): char
    requires d < 16
  {
    if d < 10 then DigitChar(d) else ('a' as int + d - 10) as char
  }

  /** Two lower-case hex digits for a channel value. */
  function Hex2(v: nat): string
    requires v < 256
  {
    [HexChar(v / 16), HexChar(v % 16)]
  }

  lemma HexCharValue(d: nat)
    requires d < 16
    ensures IsHexDigit(HexChar(d)) && HexValue(HexChar(d)) == d && !IsSpace(HexChar(d))
  {
    if d < 10 { DigitRoundTrip(d); }
  }

  lemma Hex2Value(v: nat)
    requires v < 256
    ensures HexPair(Hex2(v)) == Some(v)
    ensures forall k :: 0 <= k < 2 ==> IsHexDigit(Hex2(v)[k]) && !('A' <= Hex2(v)[k] <= 'Z')
  {
    HexCharValue(v / 16);
    HexCharValue(v % 16);
  }

  lemma LowerKeeps(s: string)
    requires forall k :: 0 <= k < |s| ==> !('A' <= s[k] <= 'Z')
    ensures Lower(s) == s
  {
    if |s| > 0 {
      LowerKeeps(s[1..]);
      assert [s[0]] + s[1..] == s;
    }
  }

  /** `#rrggbb` written with lower-case hex digits reads back as the three channels. */
  lemma HexColorRoundTrip(r: nat, g: nat, b: nat, alpha: int)
    requires r < 256 && g < 256 && b < 256
    ensures ParseRgba("#" + Hex2(r) + Hex2(g) + Hex2(b), alpha) == Some(Rgba(r, g, b, alpha))
  {
    var s := "#" + Hex2(r) + Hex2(g) + Hex2(b);
    Hex2Value(r);
    Hex2Value(g);
    Hex2Value(b);
    assert s[1..3] == Hex2(r) && s[3..5] == Hex2(g) && s[5..7] == Hex2(b);
    assert s[6] == Hex2(b)[1];
    StripSpaceKeeps(s);
    forall k | 0 <= k < |s| ensures !('A' <= s[k] <= 'Z') {
      if 1 <= k < 3 { assert s[k] == Hex2(r)[k - 1]; }
      else if 3 <= k < 5 { assert s[k] == Hex2(g)[k - 3]; }
      else if 5 <= k < 7 { assert s[k] == Hex2(b)[k - 5]; }
    }
    LowerKeeps(s);
  }

  /** The colour keeps the requested alpha, and only a malformed `#` form of
      length seven fails; every other text gives some colour. */
  lemma ParseRgbaTotal(colorStr: string, alpha: int)
    ensures ParseRgba(colorStr, alpha).Some? ==> ParseRgba(colorStr, alpha).value.a == alpha
    ensures ParseRgba(colorStr, alpha).None? ==>
      colorStr != "" && |Lower(StripSpace(colorStr))| == 7 && Lower(StripSpace(colorStr))[0] == '#'
  {
  }

  /** Case and surrounding whitespace do not matter: a colour reads as its
      stripped, lower-cased text does (the empty text and a blank one both
      read as black). */
  lemma ParseRgbaNormalised(colorStr: string, alpha: int)
    ensures ParseRgba(colorStr, alpha) == ParseRgba(Lower(StripSpace(colorStr)), alpha)
  {
    NormaliseIdempotent(colorStr);
  }

  /** The named colours: `black`, `bk`, `0` and `000000` are black, `white`,
      `fff`, `ffffff` and `1` are white, the empty text is black, and any other
      text that is not a seven-character `#` form falls back to black. */
  lemma ParseRgbaNames(colorStr: string, alpha: int)
    ensures colorStr == "" ==> ParseRgba(colorStr, alpha) == Some(Rgba(0, 0, 0, alpha))
    ensures var n := Lower(StripSpace(colorStr));
      n in {"black", "bk", "0", "000000"} ==> ParseRgba(colorStr, alpha) == Some(Rgba(0, 0, 0, alpha))
    ensures var n := Lower(StripSpace(colorStr));
      n in {"white", "fff", "ffffff", "1"} ==> ParseRgba(colorStr, alpha) == Some(Rgba(255, 255, 255, alpha))
    ensures var n := Lower(StripSpace(colorStr));
      !(|n| == 7 && n[0] == '#') && n !in {"white", "fff", "ffffff", "1"} ==>
      ParseRgba(colorStr, alpha) == Some(Rgba(0, 0, 0, alpha))
  {
    if colorStr == "" {
      assert StripSpace(colorStr) == "";
    }
  }

  /** Upper case and padding: `" WHITE "` is white. */
  lemma ParseRgbaPaddedUpper(alpha: int)
    ensures ParseRgba(" WHITE ", alpha) == Some(Rgba(255, 255, 255, alpha))
  {
    StripPaddedWhite();
    LowerWhite();
    ParseRgbaNames(" WHITE ", alpha);
  }

  lemma LowerWhite()
    ensures Lower("WHITE") == "white"
  {
  }

  lemma StripPaddedWhite()
    ensures StripSpace(" WHITE ") == "WHITE"
  {
    assert IsSpace(' ') && !IsSpace('W') && !IsSpace('E');
    assert " WHITE "[1..] == "WHITE ";
    assert StripLeft("WHITE ", IsSpace) == "WHITE ";
    assert StripLeft(" WHITE ", IsSpace) == "WHITE ";
    assert "WHITE "[..5] == "WHITE";
    assert StripRight("WHITE", IsSpace) == "WHITE";
  }

  /** Mixed case: `"Bk"` is black. */
  lemma ParseRgbaMixedCase(alpha: int)
    ensures ParseRgba("Bk", alpha) == Some(Rgba(0, 0, 0, alpha))
  {
    StripKeeps("Bk", IsSpace);
    LowerBk();
    ParseRgbaNames("Bk", alpha);
  }

  lemma LowerBk()
    ensures Lower("Bk") == "bk"
  {
  }

  /** A valid `#` form gives channels in -15..255 (a sign makes a one-digit negative). */
  lemma HexPairRange(p: string)
    requires |p| == 2
    ensures HexPair(p).Some? ==> -15 <= HexPair(p).value <= 255
  {
    if IsHexDigit(p[0]) { assert HexValue(p[0]) <= 15; }
    if IsHexDigit(p[1]) { assert HexValue(p[1]) <= 15; }
  }

  /** One channel as Pillow stores it when `Image.new` is given an integer
      outside a byte: clipped to 0..255. */
  function Clip8(v: int): (r: int)
    ensures 0 <= r <= 255
    ensures 0 <= v <= 255 ==> r == v
    ensures v < 0 ==> r == 0
    ensures v > 255 ==> r == 255
  {
    Clamp(v, 0, 255)
  }

  /** The colour an `RGBA` image holds after `Image.new(.., color)`. */
  function StoredColor(c: Rgba): (s: Rgba)
  {
    Rgba(Clip8(c.r), Clip8(c.g), Clip8(c.b), Clip8(c.a))
  }

  /** A colour parsed from text is stored unchanged exactly when its channels
      are bytes; a signed `#` pair such as `-f` is stored as 0. */
  lemma StoredParsedColor(colorStr: string, alpha: int)
    requires 0 <= alpha <= 255 && ParseRgba(colorStr, alpha).Some?
    ensures var c := ParseRgba(colorStr, alpha).value;
      StoredColor(c) == c <==> (c.r >= 0 && c.g >= 0 && c.b >= 0)
  {
    var c := ParseRgba(colorStr, alpha).value;
    var n := Lower(StripSpace(colorStr));
    if colorStr != "" && |n| == 7 && n[0] == '#' {
      HexPairRange(n[1..3]);
      HexPairRange(n[3..5]);
      HexPairRange(n[5..7]);
    }
  }

  /** `"#-f0000"` parses to red -15, which the saved frame holds as red 0. */
  lemma SignedRedStoredAsZero()
    ensures ParseRgba("#-f0000", 255) == Some(Rgba(-15, 0, 0, 255))
    ensures StoredColor(Rgba(-15, 0, 0, 255)) == Rgba(0, 0, 0, 255)
  {
    SignedRedNormal();
    var s := "#-f0000";
    assert s[1..3] == "-f" && s[3..5] == "00" && s[5..7] == "00";
  }

  lemma SignedRedNormal()
    ensures Lower(StripSpace("#-f0000")) == "#-f0000"
  {
    SignedRedStrip();
    SignedRedLower();
  }

  lemma SignedRedStrip()
    ensures StripSpace("#-f0000") == "#-f0000"
  {
    var s := "#-f0000";
    assert !IsSpace(s[0]) && !IsSpace(s[6]);
    StripKeeps(s, IsSpace);
  }

  lemma SignedRedLower()
    ensures Lower("#-f0000") == "#-f0000"
  {
    var s := "#-f0000";
    assert forall k :: 0 <= k < |s| ==> !('A' <= s[k] <= 'Z');
    LowerKeeps(s);
  }

  // ---------------------------------------------------------------------
  // The window rectangle

  /** The inclusive pixel box handed to `rounded_rectangle`, and the corner radius. */
  datatype Box = Box(x0: int, y0: int, x1: int, y1: int, radius: int)

  function Clamp(v: int, lo: int, hi: int): int
  {
    if hi < v then (if hi < lo then lo else hi) else if v < lo then lo else v
  }

  /** The exclusive right and bottom edges become inclusive (minus one), every
      coordinate is clamped into the canvas, and a negative radius becomes 0. */
  function NormalizeBox(canvasW: int, canvasH: int, rx0: int, ry0: int, rx1: int, ry1: int, radius: int): (b: Box)
    ensures canvasW >= 1 ==> 0 <= b.x0 < canvasW && 0 <= b.x1 < canvasW
    ensures canvasH >= 1 ==> 0 <= b.y0 < canvasH && 0 <= b.y1 < canvasH
    ensures b.radius >= 0
  {
    Box(Clamp(rx0, 0, canvasW - 1), Clamp(ry0, 0, canvasH - 1),
        Clamp(rx1 - 1, 0, canvasW - 1), Clamp(ry1 - 1, 0, canvasH - 1),
        if radius < 0 then 0 else radius)
  }

  /** A rectangle already inside the canvas is only converted to inclusive edges. */
  lemma NormalizeInside(canvasW: int, canvasH: int, rx0: int, ry0: int, rx1: int, ry1: int, radius: int)
    requires 0 <= rx0 < rx1 <= canvasW && 0 <= ry0 < ry1 <= canvasH && radius >= 0
    ensures NormalizeBox(canvasW, canvasH, rx0, ry0, rx1, ry1, radius) == Box(rx0, ry0, rx1 - 1, ry1 - 1, radius)
  {
  }

  /** Pillow refuses a box whose corners are reversed. */
  predicate Drawable(b: Box) { b.x0 <= b.x1 && b.y0 <= b.y1 }

  /** The pixels the rounded rectangle covers: inside the box and, near the
      corners, inside Pillow's rounded outline. */
  predicate InWindow(b: Box, inShape: (Box, int, int) -> bool, x: int, y: int)
  {
    b.x0 <= x <= b.x1 && b.y0 <= y <= b.y1 && inShape(b, x, y)
  }

  /** Alpha of the mask image: opaque inside the window, clear outside. */
  function MaskAlpha(b: Box, inShape: (Box, int, int) -> bool, x: int, y: int): int
  {
    if InWindow(b, inShape, x, y) then 255 else 0
  }

  /** Alpha of the frame image: clear inside the window, opaque outside. */
  function FrameAlpha(b: Box, inShape: (Box, int, int) -> bool, x: int, y: int): int
  {
    if InWindow(b, inShape, x, y) then 0 else 255
  }

  /** The frame is the mask inverted: overlaying it leaves visible exactly the
      pixels the mask would keep. */
  lemma FrameInvertsMask(b: Box, inShape: (Box, int, int) -> bool, x: int, y: int)
    ensures FrameAlpha(b, inShape, x, y) == 255 - MaskAlpha(b, inShape, x, y)
    ensures MaskAlpha(b, inShape, x, y) in {0, 255}
  {
  }

  /** Pixels outside the box are never part of the window. */
  lemma OutsideBoxOpaque(b: Box, inShape: (Box, int, int) -> bool, x: int, y: int)
    requires x < b.x0 || x > b.x1 || y < b.y0 || y > b.y1
    ensures FrameAlpha(b, inShape, x, y) == 255 && MaskAlpha(b, inShape, x, y) == 0
  {
  }

  // ---------------------------------------------------------------------
  // Drawing

  /** `Image.new("L", (w, h), value)`: a grid of h rows and w columns. */
  method NewAlpha(w: nat, h: nat, value: int) returns (a: array2<int>)
    ensures fresh(a) && a.Length0 == h && a.Length1 == w
    ensures forall y, x :: 0 <= y < h && 0 <= x < w ==> a[y, x] == value
  {
    a := new int[h, w];
    var y := 0;
    while y < h
      invariant 0 <= y <= h
      invariant forall yy, x :: 0 <= yy < y && 0 <= x < w ==> a[yy, x] == value
    {
      var x := 0;
      while x < w
        invariant 0 <= x <= w
        invariant forall yy, xx :: 0 <= yy < y && 0 <= xx < w ==> a[yy, xx] == value
        invariant forall xx :: 0 <= xx < x ==> a[y, xx] == value
      {
        a[y, x] := value;
        x := x + 1;
      }
      y := y + 1;
    }
  }

  /** `draw.rounded_rectangle(box, radius, fill)`: every pixel of the window
      takes `fill`, every other pixel keeps its value. */
  method FillRoundedRect(a: array2<int>, b: Box, inShape: (Box, int, int) -> bool, fill: int)
    modifies a
    ensures forall y, x :: 0 <= y < a.Length0 && 0 <= x < a.Length1 ==>
      a[y, x] == (if InWindow(b, inShape, x, y) then fill else old(a[y, x]))
  {
    var y := 0;
    while y < a.Length0
      invariant 0 <= y <= a.Length0
      invariant forall yy, x :: 0 <= yy < y && 0 <= x < a.Length1 ==>
        a[yy, x] == (if InWindow(b, inShape, x, yy) then fill else old(a[yy, x]))
      invariant forall yy, x :: y <= yy < a.Length0 && 0 <= x < a.Length1 ==> a[yy, x] == old(a[yy, x])
    {
      var x := 0;
      while x < a.Length1
        invariant 0 <= x <= a.Length1
        invariant forall yy, xx :: 0 <= yy < y && 0 <= xx < a.Length1 ==>
          a[yy, xx] == (if InWindow(b, inShape, xx, yy) then fill else old(a[yy, xx]))
        invariant forall yy, xx :: y < yy < a.Length0 && 0 <= xx < a.Length1 ==> a[yy, xx] == old(a[yy, xx])
        invariant forall xx :: 0 <= xx < x ==> a[y, xx] == (if InWindow(b, inShape, xx, y) then fill else old(a[y, xx]))
        invariant forall xx :: x <= xx < a.Length1 ==> a[y, xx] == old(a[y, xx])
      {
        if b.x0 <= x <= b.x1 && b.y0 <= y <= b.y1 && inShape(b, x, y) {
          a[y, x] := fill;
        }
        x := x + 1;
      }
      y := y + 1;
    }
  }

  /** `generate_rounded_mask`: `pil` is whether Pillow is installed and
      `saved` whether writing the PNG succeeds. On success `alpha` is the
      image's alpha channel: 255 in the window, 0 elsewhere (colour black). */
  method GenerateRoundedMask(
    pil: bool, canvasW: int, canvasH: int, rx0: int, ry0: int, rx1: int, ry1: int, radius: int,
    inShape: (Box, int, int) -> bool, saved: bool)
    returns (ok: bool, alpha: array2<int>)
    ensures ok <==> (pil && canvasW >= 0 && canvasH >= 0
                     && Drawable(NormalizeBox(canvasW, canvasH, rx0, ry0, rx1, ry1, radius)) && saved)
    ensures ok ==> (alpha.Length0 == canvasH && alpha.Length1 == canvasW
                    && forall y, x :: 0 <= y < canvasH && 0 <= x < canvasW ==>
                         alpha[y, x] == MaskAlpha(NormalizeBox(canvasW, canvasH, rx0, ry0, rx1, ry1, radius), inShape, x, y))
  {
    alpha := new int[0, 0];
    if !pil || canvasW < 0 || canvasH < 0 {
      return false, alpha;
    }
    alpha := NewAlpha(canvasW, canvasH, 0);
    var b := NormalizeBox(canvasW, canvasH, rx0, ry0, rx1, ry1, radius);
    if !Drawable(b) {
      return false, alpha;
    }
    FillRoundedRect(alpha, b, inShape, 255);
    ok := saved;
  }

  /** `generate_rounded_frame_window`: the frame is opaque background colour
      with a clear rounded window. Fails without Pillow, for a negative canvas,
      a colour whose `#` form does not parse, a reversed box or a failed save.
      On success every pixel has the parsed background colour as Pillow stores
      it (each channel clipped to a byte) and the frame alpha. */
  method GenerateRoundedFrame(
    pil: bool, canvasW: int, canvasH: int, rx0: int, ry0: int, rx1: int, ry1: int, radius: int,
    bgColor: string, inShape: (Box, int, int) -> bool, saved: bool)
    returns (ok: bool, color: Rgba, alpha: array2<int>)
    ensures ok <==> (pil && ParseRgba(bgColor, 255).Some? && canvasW >= 0 && canvasH >= 0
                     && Drawable(NormalizeBox(canvasW, canvasH, rx0, ry0, rx1, ry1, radius)) && saved)
    ensures ok ==> (color == StoredColor(ParseRgba(bgColor, 255).value)
                    && alpha.Length0 == canvasH && alpha.Length1 == canvasW
                    && forall y, x :: 0 <= y < canvasH && 0 <= x < canvasW ==>
                         alpha[y, x] == FrameAlpha(NormalizeBox(canvasW, canvasH, rx0, ry0, rx1, ry1, radius), inShape, x, y))
  {
    color := Rgba(0, 0, 0, 255);
    alpha := new int[0, 0];
    if !pil {
      return false, color, alpha;
    }
    var parsed := ParseRgba(bgColor, 255);
    if parsed.None? || canvasW < 0 || canvasH < 0 {
      return false, color, alpha;
    }
    color := StoredColor(parsed.value);
    alpha := NewAlpha(canvasW, canvasH, 255);
    var b := NormalizeBox(canvasW, canvasH, rx0, ry0, rx1, ry1, radius);
    if !Drawable(b) {
      return false, color, alpha;
    }
    FillRoundedRect(alpha, b, inShape, 0);
    ok := saved;
  }
}
