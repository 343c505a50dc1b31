/**
 * Where the layers that `Box.paint` and `Box.save` (class_box.py) build land
 * on the image. No pixel is modelled: a composite is described by its
 * rectangles, each filled with the box colour at one opacity, in the order
 * they are pasted (a later paste without a mask replaces what lies under it),
 * and by the caption drawn into it. Coordinates follow the source's chain of
 * offsets: a layer pasted at `(a, b)` into a layer that is itself pasted at
 * `(c, d)` lands at `(a + c, b + d)`.
 */
module Layers {
  import opened BoxGeometry

  /** Opacities of the three layers, `background_alpha`, `border_alpha` and `box_alpha`. */
  const WashAlpha := 63
  const FrameAlpha := 255
  const HoleAlpha := 0

  /** Height of the strip above the baked frame reserved for the label. */
  const CaptionStrip := 11

  datatype Rect = Rect(left: int, top: int, width: int, height: int)

  /** `r` placed inside a layer whose own origin is at `(dx, dy)`. */
  function Shift(r: Rect, dx: int, dy: int): Rect {
    r.(left := r.left + dx, top := r.top + dy)
  }

  /** A rectangle of the composite, in image coordinates, with its opacity. */
  datatype Region = Region(area: Rect, alpha: int)

  datatype Caption = NoCaption | Caption(text: string, left: int, top: int)

  /** One composite pasted onto an image with its own alpha as the mask. */
  datatype Stamp = Stamp(color: seq<int>, regions: seq<Region>, caption: Caption)

  /** `r` lies inside `outer` with margins `side` left, right and below, and `above` on top. */
  predicate Frames(outer: Rect, r: Rect, side: int, above: int) {
    outer.left + side == r.left && outer.top + above == r.top &&
    outer.width == r.width + 2 * side && outer.height == r.height + above + side
  }

  /** The live preview of `paint`: an image-sized wash layer pasted at
      `(-border, -border)`, holding the border layer at `(x, y)` and the
      transparent box layer at `(x + border, y + border)`. The frame's outer
      corner lands at `(x - border, y - border)` and the hole sits exactly on
      the box: inside it the image shows through untouched. */
  function Preview(g: Geometry, border: int, imgW: int, imgH: int, color: seq<int>): (s: Stamp)
    ensures |s.regions| == 3 && s.caption == NoCaption && s.color == color
    ensures s.regions[0] == Region(Rect(-border, -border, imgW + 2 * border, imgH + 2 * border), WashAlpha)
    ensures s.regions[1] == Region(Rect(g.x - border, g.y - border, g.w + 2 * border, g.h + 2 * border), FrameAlpha)
    ensures s.regions[2] == Region(Rect(g.x, g.y, g.w, g.h), HoleAlpha)
    ensures Frames(s.regions[1].area, s.regions[2].area, border, border)
  {
    var dx, dy := -border, -border;
    var wash := Rect(0, 0, imgW + 2 * border, imgH + 2 * border);
    var frame := Shift(Rect(0, 0, g.w + 2 * border, g.h + 2 * border), g.x, g.y);
    var hole := Shift(Rect(0, 0, g.w, g.h), g.x + border, g.y + border);
    Stamp(color, [Region(Shift(wash, dx, dy), WashAlpha),
                  Region(Shift(frame, dx, dy), FrameAlpha),
                  Region(Shift(hole, dx, dy), HoleAlpha)], NoCaption)
  }

  /** The frame `save` burns in: a border layer `CaptionStrip` pixels taller,
      the label drawn at `(2, 0)` in it, the transparent box layer at
      `(border, border + 11)`, the whole pasted at
      `(x - border, y - border - 11)`. */
  function Baked(g: Geometry, border: int, color: seq<int>, name: string): (s: Stamp)
    ensures |s.regions| == 2 && s.color == color
    ensures s.regions[0] == Region(Rect(g.x - border, g.y - border - CaptionStrip, g.w + 2 * border, g.h + 2 * border + CaptionStrip), FrameAlpha)
    ensures s.regions[1] == Region(Rect(g.x, g.y, g.w, g.h), HoleAlpha)
    ensures s.caption == Caption(name, g.x - border + 2, g.y - border - CaptionStrip)
    ensures Frames(s.regions[0].area, s.regions[1].area, border, border + CaptionStrip)
  {
    var dx, dy := g.x - border, g.y - border - CaptionStrip;
    var frame := Rect(0, 0, g.w + 2 * border, g.h + 2 * border + CaptionStrip);
    var hole := Shift(Rect(0, 0, g.w, g.h), border, border + CaptionStrip);
    Stamp(color, [Region(Shift(frame, dx, dy), FrameAlpha),
                  Region(Shift(hole, dx, dy), HoleAlpha)], Caption(name, 2 + dx, 0 + dy))
  }

  /** The baked frame covers the preview frame and extends it upward by the
      caption strip only; both leave the same clear hole over the box. */
  lemma BakedExtendsPreviewUpward(g: Geometry, border: int, imgW: int, imgH: int, color: seq<int>, name: string)
    ensures var pv, bk := Preview(g, border, imgW, imgH, color), Baked(g, border, color, name);
            var f, F := pv.regions[1].area, bk.regions[0].area;
            pv.regions[2] == bk.regions[1] &&
            F.left == f.left && F.width == f.width &&
            F.top == f.top - CaptionStrip && F.top + F.height == f.top + f.height
  {
  }
}
