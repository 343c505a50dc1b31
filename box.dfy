/**
 * The `Box` object of class_box.py and the image it draws on. A Box holds
 * the rectangle being edited; its eight edge methods update the fields in
 * place exactly as the source does, and each is specified by the matching
 * function of `BoxGeometry`, so every property proved there holds of the
 * object. `paint` draws on a copy of the image; `save` burns the frame into
 * the image itself and assigns the export record to `info`.
 */
module BoxModel {
  import opened BoxGeometry
  import Export
  import Layers

  /** A PIL image, reduced to its size and the composites pasted onto it. */
  class Image {
    const width: nat
    const height: nat
    var stamps: seq<Layers.Stamp>

    constructor (width: nat, height: nat)
      ensures this.width == width && this.height == height && stamps == []
    {
      this.width := width;
      this.height := height;
      stamps := [];
    }

    /** `Image.copy`: a new image with the same contents. */
    method Copy() returns (c: Image)
      ensures fresh(c)
      ensures c.width == width && c.height == height && c.stamps == stamps
    {
      c := new Image(width, height);
      c.stamps := stamps;
    }

    /** `Image.paste(layer, pos, mask=layer)`: the composite is added on top. */
    method Paste(s: Layers.Stamp)
      modifies this`stamps
      ensures stamps == old(stamps) + [s]
    {
      stamps := stamps + [s];
    }
  }

  class Box {
    var x: int
    var y: int
    var w: int
    var h: int
    var speed: int
    var border: int
    const color: seq<int>
    const name: string
    const img: Image
    /** `img.size[0]` and `img.size[1]`; pasting never changes an image's size. */
    const imgW: int
    const imgH: int
    var info: Export.Record

    function Geom(): Geometry
      reads this
    {
      Geometry(x, y, w, h)
    }

    function Settings(): Params
      reads this
    {
      Params(speed, border, imgW, imgH)
    }

    /** The bounds the edge methods keep: a non-negative step and a box
        between its frame thickness and the image size. */
    ghost predicate Valid()
      reads this
    {
      0 <= speed && Inv(Geom(), Settings())
    }

    /** `Box(img, color, label)`: the box starts as the whole image, with a
        step of 10 pixels, a 2-pixel frame and an empty record. */
    constructor (img: Image, color: seq<int>, name: string)
      ensures this.img == img && imgW == img.width && imgH == img.height
      ensures x == 0 && y == 0 && w == imgW && h == imgH
      ensures speed == 10 && border == 2
      ensures this.color == color && this.name == name && info == map[]
      ensures 2 <= imgW && 2 <= imgH ==> Valid()
    {
      x := 0;
      y := 0;
      w := img.width;
      h := img.height;
      speed := 10;
      this.color := color;
      border := 2;
      this.img := img;
      this.name := name;
      info := map[];
      imgW := img.width;
      imgH := img.height;
    }

    method TopUp()
      modifies this`y, this`h
      ensures Geom() == AfterTopUp(old(Geom()), Settings())
      ensures old(Valid()) ==> Valid()
    {
      y := y - speed;
      h := h + speed;
      if y < 0 { y := 0; }
      if h > imgH { h := imgH; }
    }

    method TopDown()
      modifies this`y, this`h
      ensures Geom() == AfterTopDown(old(Geom()), Settings())
      ensures old(Valid()) ==> Valid()
    {
      y := y + speed;
      h := h - speed;
      if h < border { h := border; }
      if y > imgH { y := imgH; }
    }

    method BottomUp()
      modifies this`h
      ensures Geom() == AfterBottomUp(old(Geom()), Settings())
      ensures old(Valid()) ==> Valid()
    {
      h := h - speed;
      if h < border { h := border; }
    }

    method BottomDown()
      modifies this`h
      ensures Geom() == AfterBottomDown(old(Geom()), Settings())
      ensures old(Valid()) ==> Valid()
    {
      h := h + speed;
      if h > imgH { h := imgH; }
    }

    /** As written, a negative `x` resets `y`, not `x`. */
    method LeftLeft()
      modifies this`x, this`y, this`w
      ensures Geom() == AfterLeftLeft(old(Geom()), Settings())
      ensures old(Valid()) ==> Valid()
    {
      x := x - speed;
      w := w + speed;
      if x < 0 { y := 0; }
      if w > imgW { w := imgW; }
    }

    /** As written, `x` is capped at the image height. */
    method LeftRight()
      modifies this`x, this`w
      ensures Geom() == AfterLeftRight(old(Geom()), Settings())
      ensures old(Valid()) ==> Valid()
    {
      x := x + speed;
      w := w - speed;
      if w < border { w := border; }
      if x > imgH { x := imgH; }
    }

    method RightLeft()
      modifies this`w
      ensures Geom() == AfterRightLeft(old(Geom()), Settings())
      ensures old(Valid()) ==> Valid()
    {
      w := w - speed;
      if w < border { w := border; }
    }

    method RightRight()
      modifies this`w
      ensures Geom() == AfterRightRight(old(Geom()), Settings())
      ensures old(Valid()) ==> Valid()
    {
      w := w + speed;
      if w > imgW { w := imgW; }
    }

    /** The live preview: a copy of the image with the translucent frame on
        top. Neither the image nor the box changes. */
    method Paint() returns (preview: Image)
      ensures fresh(preview)
      ensures preview.width == img.width && preview.height == img.height
      ensures preview.stamps == img.stamps + [Layers.Preview(Geom(), border, imgW, imgH, color)]
      ensures img.stamps == old(img.stamps)
    {
      preview := img.Copy();
      preview.Paste(Layers.Preview(Geom(), border, imgW, imgH, color));
    }

    /** Commit: the frame and label are burnt into the image itself (earlier
        bakes stay underneath) and `info` becomes the export record. The
        geometry is left as it was. The source divides by the image size,
        so an empty image is excluded. */
    method Save()
      requires imgW != 0 && imgH != 0
      modifies this`info, img`stamps
      ensures img.stamps == old(img.stamps) + [Layers.Baked(Geom(), border, color, name)]
      ensures info == Export.Info(name, Geom(), imgW, imgH)
      ensures Geom() == old(Geom()) && Settings() == old(Settings())
    {
      img.Paste(Layers.Baked(Geom(), border, color, name));
      info := Export.Info(name, Geom(), imgW, imgH);
    }
  }
}
