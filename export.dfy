/**
 * The export arithmetic of `Box.save` in class_box.py: the box is turned
 * into a one-key record `{label: [cx, cy, bw, bh]}` of ratios to the image
 * size. The ratios are exact reals here; the source rounds them to six
 * decimals. As written the centre uses the floor of half the size, and the
 * fourth field repeats the width ratio (the height ratio is computed and
 * then dropped).
 */
module Export {
  import opened BoxGeometry

  /** One committed box, as stored in the session list. */
  type Record = map<string, seq<real>>

  function Ratio(n: int, d: int): real
    requires d != 0
  {
    n as real / d as real
  }

  /** The four exported numbers. `w // 2` of the source is `w / 2` here:
      both floor, since the divisor is positive. Multiplying a field back by
      the image size recovers the pixel quantity it was made from. */
  function Normalised(g: Geometry, imgW: int, imgH: int): (v: seq<real>)
    requires imgW != 0 && imgH != 0
    ensures |v| == 4
    ensures v[0] * imgW as real == (g.x + g.w / 2) as real
    ensures v[1] * imgH as real == (g.y + g.h / 2) as real
    ensures v[2] * imgW as real == g.w as real
    ensures v[3] == v[2]
  {
    var cx := Ratio(g.x + g.w / 2, imgW);
    var cy := Ratio(g.y + g.h / 2, imgH);
    var bw := Ratio(g.w, imgW);
    var bh := Ratio(g.h, imgH);  // computed, never exported
    [cx, cy, bw, bw]
  }

  /** The record `save` assigns to `info`: exactly one key, the label. */
  function Info(name: string, g: Geometry, imgW: int, imgH: int): (r: Record)
    requires imgW != 0 && imgH != 0
    ensures r.Keys == {name}
    ensures r[name] == Normalised(g, imgW, imgH)
  {
    map[name := Normalised(g, imgW, imgH)]
  }

  /** The exported centre is the exact centre `x + w/2` only for even widths;
      for an odd width it lies half a pixel to the left. */
  lemma CentreIsExactIffEvenWidth(g: Geometry, imgW: int, imgH: int)
    requires imgW != 0 && imgH != 0
    ensures var v := Normalised(g, imgW, imgH);
            v[0] == (g.x as real + g.w as real / 2.0) / imgW as real <==> g.w % 2 == 0
  {
  }

  /** The fourth field is the height ratio `h / imgH` exactly when the box
      has the image's aspect ratio. */
  lemma FourthFieldIsHeightIffSameAspect(g: Geometry, imgW: int, imgH: int)
    requires imgW != 0 && imgH != 0
    ensures Normalised(g, imgW, imgH)[3] == Ratio(g.h, imgH) <==> g.w * imgH == g.h * imgW
  {
  }

  /** A box lying wholly inside the image exports ratios in `[0, 1]`. */
  lemma InsideBoxExportsUnitRatios(g: Geometry, imgW: int, imgH: int)
    requires 0 < imgW && 0 < imgH
    requires 0 <= g.x && 0 <= g.w && g.x + g.w <= imgW
    requires 0 <= g.y && 0 <= g.h && g.y + g.h <= imgH
    ensures var v := Normalised(g, imgW, imgH);
            0.0 <= v[0] <= 1.0 && 0.0 <= v[1] <= 1.0 && 0.0 <= v[2] <= 1.0 && v[3] == v[2]
  {
    var v := Normalised(g, imgW, imgH);
    RatioInUnit(g.x + g.w / 2, imgW, v[0]);
    RatioInUnit(g.y + g.h / 2, imgH, v[1]);
    RatioInUnit(g.w, imgW, v[2]);
  }

  lemma RatioInUnit(n: int, d: int, q: real)
    requires 0 <= n <= d && 0 < d && q * d as real == n as real
    ensures 0.0 <= q <= 1.0
  {
    assert q == n as real / d as real;
  }

  /** The box `left_right` leaves at the right edge of a square image
      exports a centre beyond 1: the clamps do not keep `x + w <= imgW`. */
  lemma LeftRightCanExportCentreBeyondOne()
    ensures var p := Params(10, 2, 10, 10);
            var g := Apply(LeftRight, Geometry(0, 0, 10, 10), p);
            g == Geometry(10, 0, 2, 10) && Normalised(g, p.imgW, p.imgH)[0] == 1.1
  {
  }

  /** The worked example of a 200 x 100 image: a 60 x 30 box at (40, 20)
      exports [0.35, 0.35, 0.3, 0.3]. */
  lemma WorkedExample()
    ensures Info("cat", Geometry(40, 20, 60, 30), 200, 100) == map["cat" := [0.35, 0.35, 0.3, 0.3]]
  {
  }

  /** The same box made 50 high exports 0.3 as its last field, not 0.5. */
  lemma WidthExportedTwice()
    ensures Normalised(Geometry(40, 20, 60, 50), 200, 100) == [0.35, 0.45, 0.3, 0.3]
    ensures Ratio(50, 100) == 0.5
  {
  }
}
