/**
 * The rectangle of one bounding box and the eight edge-adjustment steps of
 * class_box.py (`Box.top_up` ... `Box.right_right`), as functions on values.
 * The class `BoxModel.Box` runs the same steps on its fields; each of its
 * methods is specified by the matching `After...` function below.
 *
 * Every step is modelled exactly as written, including two clamps that do
 * not do what their neighbours suggest: `left_left` resets `y` (not `x`)
 * when `x` goes negative, and `left_right` caps `x` at the image HEIGHT.
 */
module BoxGeometry {

  /** Position (top-left corner) and size of the box, in image pixels. */
  datatype Geometry = Geometry(x: int, y: int, w: int, h: int)

  /** What a step reads besides the geometry: the step (`speed`), the frame
      thickness (`border`) and the image size (`img.size[0]`, `img.size[1]`). */
  datatype Params = Params(speed: int, border: int, imgW: int, imgH: int)

  /** The guarded clamps of the source: `if v < lo: v = lo`, `if v > hi: v = hi`. */
  function AtLeast(v: int, lo: int): int { if v < lo then lo else v }
  function AtMost(v: int, hi: int): int { if v > hi then hi else v }

  /** The bounds every step keeps once they hold: the box is never thinner
      than its frame nor larger than the image, and its top edge stays on
      the image. Nothing is said about `x` (see `LeftLeftLeavesXNegative`). */
  ghost predicate Inv(g: Geometry, p: Params) {
    p.border <= g.w <= p.imgW && p.border <= g.h <= p.imgH && 0 <= g.y <= p.imgH
  }

  // ---------------------------------------------------------------------
  // The eight steps. Each says which clamp it enforces, which fields it
  // leaves alone, that it keeps Inv, and when a zero step changes nothing.
  // ---------------------------------------------------------------------

  /** `top_up`: the top edge moves up; `y` floors at 0, `h` is capped at the image height. */
  function AfterTopUp(g: Geometry, p: Params): (r: Geometry)
    ensures 0 <= r.y && r.h <= p.imgH
    ensures r.x == g.x && r.w == g.w
    ensures 0 <= p.speed && Inv(g, p) ==> Inv(r, p)
    ensures p.speed == 0 && Inv(g, p) ==> r == g
  {
    g.(y := AtLeast(g.y - p.speed, 0), h := AtMost(g.h + p.speed, p.imgH))
  }

  /** `top_down`: the top edge moves down; `h` floors at the border, `y` is capped at the image height. */
  function AfterTopDown(g: Geometry, p: Params): (r: Geometry)
    ensures p.border <= r.h && r.y <= p.imgH
    ensures r.x == g.x && r.w == g.w
    ensures 0 <= p.speed && Inv(g, p) ==> Inv(r, p)
    ensures p.speed == 0 && Inv(g, p) ==> r == g
  {
    g.(y := AtMost(g.y + p.speed, p.imgH), h := AtLeast(g.h - p.speed, p.border))
  }

  /** `bottom_up`: only `h` shrinks, flooring at the border. */
  function AfterBottomUp(g: Geometry, p: Params): (r: Geometry)
    ensures p.border <= r.h
    ensures r.x == g.x && r.y == g.y && r.w == g.w
    ensures 0 <= p.speed && Inv(g, p) ==> Inv(r, p)
    ensures p.speed == 0 && Inv(g, p) ==> r == g
  {
    g.(h := AtLeast(g.h - p.speed, p.border))
  }

  /** `bottom_down`: only `h` grows, capped at the image height. */
  function AfterBottomDown(g: Geometry, p: Params): (r: Geometry)
    ensures r.h <= p.imgH
    ensures r.x == g.x && r.y == g.y && r.w == g.w
    ensures 0 <= p.speed && Inv(g, p) ==> Inv(r, p)
    ensures p.speed == 0 && Inv(g, p) ==> r == g
  {
    g.(h := AtMost(g.h + p.speed, p.imgH))
  }

  /** `left_left`: the left edge moves out. `w` is capped at the image width;
      the guard on a negative `x` assigns `y := 0` and leaves `x` as it is. */
  function AfterLeftLeft(g: Geometry, p: Params): (r: Geometry)
    ensures r.w <= p.imgW
    ensures r.h == g.h
    ensures r.x == g.x - p.speed
    ensures r.y == g.y || r.y == 0
    ensures 0 <= p.speed && Inv(g, p) ==> Inv(r, p)
    ensures p.speed == 0 && Inv(g, p) ==> (r == g <==> 0 <= g.x || g.y == 0)
  {
    var x := g.x - p.speed;
    var w := g.w + p.speed;
    Geometry(x, if x < 0 then 0 else g.y, AtMost(w, p.imgW), g.h)
  }

  /** `left_right`: the left edge moves in. `w` floors at the border and `x`
      is capped at the image height (not the width). */
  function AfterLeftRight(g: Geometry, p: Params): (r: Geometry)
    ensures p.border <= r.w && r.x <= p.imgH
    ensures r.y == g.y && r.h == g.h
    ensures 0 <= p.speed && Inv(g, p) ==> Inv(r, p)
    ensures p.speed == 0 && Inv(g, p) ==> (r == g <==> g.x <= p.imgH)
  {
    g.(x := AtMost(g.x + p.speed, p.imgH), w := AtLeast(g.w - p.speed, p.border))
  }

  /** `right_left`: only `w` shrinks, flooring at the border. */
  function AfterRightLeft(g: Geometry, p: Params): (r: Geometry)
    ensures p.border <= r.w
    ensures r.x == g.x && r.y == g.y && r.h == g.h
    ensures 0 <= p.speed && Inv(g, p) ==> Inv(r, p)
    ensures p.speed == 0 && Inv(g, p) ==> r == g
  {
    g.(w := AtLeast(g.w - p.speed, p.border))
  }

  /** `right_right`: only `w` grows, capped at the image width. */
  function AfterRightRight(g: Geometry, p: Params): (r: Geometry)
    ensures r.w <= p.imgW
    ensures r.x == g.x && r.y == g.y && r.h == g.h
    ensures 0 <= p.speed && Inv(g, p) ==> Inv(r, p)
    ensures p.speed == 0 && Inv(g, p) ==> r == g
  {
    g.(w := AtMost(g.w + p.speed, p.imgW))
  }

  // ---------------------------------------------------------------------
  // Sequences of commands, in the order the user clicks the buttons.
  // ---------------------------------------------------------------------

  /** One button of the editing menu per edge step. */
  datatype Command =
    | TopUp | TopDown | BottomUp | BottomDown
    | LeftLeft | LeftRight | RightLeft | RightRight

  function Apply(c: Command, g: Geometry, p: Params): Geometry {
    match c
    case TopUp => AfterTopUp(g, p)
    case TopDown => AfterTopDown(g, p)
    case BottomUp => AfterBottomUp(g, p)
    case BottomDown => AfterBottomDown(g, p)
    case LeftLeft => AfterLeftLeft(g, p)
    case LeftRight => AfterLeftRight(g, p)
    case RightLeft => AfterRightLeft(g, p)
    case RightRight => AfterRightRight(g, p)
  }

  /** The geometry after the commands `cs`, applied first to last. */
  function Replay(g: Geometry, cs: seq<Command>, p: Params): Geometry
    decreases |cs|
  {
    if cs == [] then g else Replay(Apply(cs[0], g, p), cs[1..], p)
  }

  /** However the user clicks, with a non-negative step the box keeps its bounds. */
  lemma {:induction false} ReplayKeepsInv(g: Geometry, cs: seq<Command>, p: Params)
    requires 0 <= p.speed && Inv(g, p)
    ensures Inv(Replay(g, cs, p), p)
    decreases |cs|
  {
    if cs != [] {
      ReplayKeepsInv(Apply(cs[0], g, p), cs[1..], p);
    }
  }

  /** No click with a non-negative step takes `x` above the image height:
      `left_left` only lowers it and `left_right` caps it there. */
  lemma {:induction false} ReplayKeepsXAtMostHeight(g: Geometry, cs: seq<Command>, p: Params)
    requires 0 <= p.speed && g.x <= p.imgH
    ensures Replay(g, cs, p).x <= p.imgH
    decreases |cs|
  {
    if cs != [] {
      assert Apply(cs[0], g, p).x <= p.imgH;
      ReplayKeepsXAtMostHeight(Apply(cs[0], g, p), cs[1..], p);
    }
  }

  /** With a zero step every click is a no-op, provided `x <= imgH` (which
      every box reached from a new one satisfies, by
      `ReplayKeepsXAtMostHeight`) and `x` is negative only when `y` is 0:
      otherwise the `left_left` guard still resets `y`. */
  lemma {:induction false} ZeroSpeedReplayIsIdentity(g: Geometry, cs: seq<Command>, p: Params)
    requires p.speed == 0 && Inv(g, p) && g.x <= p.imgH && (0 <= g.x || g.y == 0)
    ensures Replay(g, cs, p) == g
    decreases |cs|
  {
    if cs != [] {
      assert Apply(cs[0], g, p) == g;
      ZeroSpeedReplayIsIdentity(g, cs[1..], p);
    }
  }

  /** A state that satisfies Inv but where a zero-step `left_left` still
      changes the geometry: `x` is negative (left by an earlier `left_left`)
      and `y` positive (moved by a later `top_down`). */
  lemma ZeroSpeedLeftLeftResetsY()
    ensures var p := Params(0, 2, 100, 100);
            var g := Geometry(-10, 10, 100, 90);
            Inv(g, p) && Apply(LeftLeft, g, p) == Geometry(-10, 0, 100, 90)
  {
  }

  /** A zero-step `left_right` moves a box whose `x` lies beyond the image
      height. Only a landscape image (`imgW > imgH`) admits such a box
      within the bounds, and no sequence of clicks from a new box reaches
      it (`ReplayKeepsXAtMostHeight`). */
  lemma ZeroSpeedLeftRightMovesX()
    ensures var p := Params(0, 2, 300, 100);
            var g := Geometry(150, 0, 100, 100);
            Inv(g, p) && Apply(LeftRight, g, p) == Geometry(100, 0, 100, 100)
  {
  }

  // ---------------------------------------------------------------------
  // Reference definition: when no clamp fires, a command moves exactly the
  // edge its button names by one step and leaves the other three edges.
  // ---------------------------------------------------------------------

  /** The four edges of a box: the anchor edges of the top and left steps
      are `bottom` and `right`. */
  datatype Sides = Sides(top: int, bottom: int, left: int, right: int)

  function SidesOf(g: Geometry): Sides {
    Sides(g.y, g.y + g.h, g.x, g.x + g.w)
  }

  /** The intended effect of a button on the edges, written from its name. */
  function Nudge(s: Sides, c: Command, d: int): Sides {
    match c
    case TopUp => s.(top := s.top - d)
    case TopDown => s.(top := s.top + d)
    case BottomUp => s.(bottom := s.bottom - d)
    case BottomDown => s.(bottom := s.bottom + d)
    case LeftLeft => s.(left := s.left - d)
    case LeftRight => s.(left := s.left + d)
    case RightLeft => s.(right := s.right - d)
    case RightRight => s.(right := s.right + d)
  }

  function NudgeAll(s: Sides, cs: seq<Command>, d: int): Sides
    decreases |cs|
  {
    if cs == [] then s else NudgeAll(Nudge(s, cs[0], d), cs[1..], d)
  }

  /** None of the guards of command `c` fires on `g`. */
  predicate NoClamp(c: Command, g: Geometry, p: Params) {
    var s := p.speed;
    match c
    case TopUp => 0 <= g.y - s && g.h + s <= p.imgH
    case TopDown => p.border <= g.h - s && g.y + s <= p.imgH
    case BottomUp => p.border <= g.h - s
    case BottomDown => g.h + s <= p.imgH
    case LeftLeft => 0 <= g.x - s && g.w + s <= p.imgW
    case LeftRight => p.border <= g.w - s && g.x + s <= p.imgH
    case RightLeft => p.border <= g.w - s
    case RightRight => g.w + s <= p.imgW
  }

  /** No guard fires anywhere along the replay of `cs`. */
  predicate NoClampAlong(g: Geometry, cs: seq<Command>, p: Params)
    decreases |cs|
  {
    cs == [] || (NoClamp(cs[0], g, p) && NoClampAlong(Apply(cs[0], g, p), cs[1..], p))
  }

  /** One unclamped click moves exactly the named edge by one step; in
      particular `top_up`/`top_down` keep `y + h` and `left_left`/`left_right`
      keep `x + w`. */
  lemma FreeStepNudges(c: Command, g: Geometry, p: Params)
    requires NoClamp(c, g, p)
    ensures SidesOf(Apply(c, g, p)) == Nudge(SidesOf(g), c, p.speed)
  {
  }

  /** An unclamped run of clicks moves the edges exactly as the buttons say. */
  lemma {:induction false} FreeReplayNudges(g: Geometry, cs: seq<Command>, p: Params)
    requires NoClampAlong(g, cs, p)
    ensures SidesOf(Replay(g, cs, p)) == NudgeAll(SidesOf(g), cs, p.speed)
    decreases |cs|
  {
    if cs != [] {
      FreeStepNudges(cs[0], g, p);
      FreeReplayNudges(Apply(cs[0], g, p), cs[1..], p);
    }
  }

  /** Only top-edge buttons move only the top edge. */
  lemma {:induction false} NudgeAllTopOnly(s: Sides, cs: seq<Command>, d: int)
    requires forall i :: 0 <= i < |cs| ==> cs[i] == TopUp || cs[i] == TopDown
    ensures var t := NudgeAll(s, cs, d);
            t.bottom == s.bottom && t.left == s.left && t.right == s.right
    decreases |cs|
  {
    if cs != [] {
      NudgeAllTopOnly(Nudge(s, cs[0], d), cs[1..], d);
    }
  }

  /** Only left-edge buttons move only the left edge. */
  lemma {:induction false} NudgeAllLeftOnly(s: Sides, cs: seq<Command>, d: int)
    requires forall i :: 0 <= i < |cs| ==> cs[i] == LeftLeft || cs[i] == LeftRight
    ensures var t := NudgeAll(s, cs, d);
            t.top == s.top && t.bottom == s.bottom && t.right == s.right
    decreases |cs|
  {
    if cs != [] {
      NudgeAllLeftOnly(Nudge(s, cs[0], d), cs[1..], d);
    }
  }

  /** Any number of unclamped `top_up`/`top_down` clicks keep the bottom
      edge `y + h` where it was, and do not touch `x` and `w`. */
  lemma TopMovesKeepBottomAnchor(g: Geometry, cs: seq<Command>, p: Params)
    requires forall i :: 0 <= i < |cs| ==> cs[i] == TopUp || cs[i] == TopDown
    requires NoClampAlong(g, cs, p)
    ensures var r := Replay(g, cs, p);
            r.y + r.h == g.y + g.h && r.x == g.x && r.w == g.w
  {
    FreeReplayNudges(g, cs, p);
    NudgeAllTopOnly(SidesOf(g), cs, p.speed);
  }

  /** Any number of unclamped `left_left`/`left_right` clicks keep the right
      edge `x + w` where it was, and do not touch `y` and `h`. */
  lemma LeftMovesKeepRightAnchor(g: Geometry, cs: seq<Command>, p: Params)
    requires forall i :: 0 <= i < |cs| ==> cs[i] == LeftLeft || cs[i] == LeftRight
    requires NoClampAlong(g, cs, p)
    ensures var r := Replay(g, cs, p);
            r.x + r.w == g.x + g.w && r.y == g.y && r.h == g.h
  {
    FreeReplayNudges(g, cs, p);
    NudgeAllLeftOnly(SidesOf(g), cs, p.speed);
  }

  // ---------------------------------------------------------------------
  // Repeated clicks at a bound, and the two clamps as written.
  // ---------------------------------------------------------------------

  /** The state a command is driven to by repeated clicks, where clicking it
      again changes nothing. `left_left` has none: it never clamps `x`. */
  predicate Pinned(c: Command, g: Geometry, p: Params) {
    match c
    case TopUp => g.y == 0 && g.h == p.imgH
    case TopDown => g.y == p.imgH && g.h == p.border
    case BottomUp => g.h == p.border
    case BottomDown => g.h == p.imgH
    case LeftLeft => false
    case LeftRight => g.x == p.imgH && g.w == p.border
    case RightLeft => g.w == p.border
    case RightRight => g.w == p.imgW
  }

  /** Once a command has reached its bound, clicking it again has no effect. */
  lemma PinnedIsFixedPoint(c: Command, g: Geometry, p: Params)
    requires 0 <= p.speed && Pinned(c, g, p)
    ensures Apply(c, g, p) == g
  {
  }

  /** With a positive step, `left_left` changes the box on every click,
      however often it has been clicked before. */
  lemma LeftLeftNeverSettles(g: Geometry, p: Params)
    requires 0 < p.speed
    ensures Apply(LeftLeft, g, p) != g
  {
  }

  /** `left_left` from the starting box drives `x` negative and resets `y`,
      so `0 <= x` is not kept although the full-width box cannot grow. */
  lemma LeftLeftLeavesXNegative()
    ensures var p := Params(10, 2, 200, 100);
            var g := Geometry(0, 30, 200, 70);
            Inv(g, p) && Apply(LeftLeft, g, p) == Geometry(-10, 0, 200, 70)
  {
  }

  /** On a landscape image `left_right` stops `x` at the image height while
      `w` keeps shrinking, so the right edge `x + w` moves left. */
  lemma LeftRightCapsXAtHeight()
    ensures var p := Params(10, 2, 300, 100);
            var g := Geometry(100, 0, 200, 100);
            var r := Apply(LeftRight, g, p);
            Inv(g, p) && r == Geometry(100, 0, 190, 100) && r.x + r.w < g.x + g.w
  {
  }
}
