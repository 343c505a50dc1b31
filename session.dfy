/**
 * The part of `MenuWindow` (class_box.py) that is model logic: the working
 * image new boxes are drawn on, the box being edited, and `box_list`, the
 * ordered list of committed records. Starting a new box drops the previous
 * one, committed or not.
 */
module Session {
  import opened BoxGeometry
  import Export
  import Layers
  import opened BoxModel

  class Session {
    /** The working image every box bakes into. */
    const img: Image
    var box: Box?
    var boxList: seq<Export.Record>

    constructor (img: Image)
      ensures this.img == img && box == null && boxList == []
    {
      this.img := img;
      box := null;
      boxList := [];
    }

    /** `new_box_func`: a fresh box over the working image replaces the current one. */
    method NewBox(color: seq<int>, name: string)
      modifies this`box
      ensures box != null && fresh(box)
      ensures box.img == img && box.color == color && box.name == name && box.info == map[]
      ensures box.Geom() == Geometry(0, 0, img.width, img.height)
      ensures box.Settings() == Params(10, 2, img.width, img.height)
      ensures boxList == old(boxList)
    {
      box := new Box(img, color, name);
    }

    /** `box_list.append`: one more record at the end, the earlier ones kept in order. */
    method Append(r: Export.Record)
      modifies this`boxList
      ensures boxList == old(boxList) + [r]
      ensures |boxList| == |old(boxList)| + 1
      ensures forall i :: 0 <= i < |old(boxList)| ==> boxList[i] == old(boxList)[i]
    {
      boxList := boxList + [r];
    }

    /** `box_save`: commit the current box, then append exactly its record. */
    method BoxSave()
      requires box != null && box.imgW != 0 && box.imgH != 0
      modifies this`boxList, box`info, box.img`stamps
      ensures box.info == Export.Info(box.name, box.Geom(), box.imgW, box.imgH)
      ensures box.img.stamps == old(box.img.stamps) + [Layers.Baked(box.Geom(), box.border, box.color, box.name)]
      ensures box.Geom() == old(box.Geom())
      ensures boxList == old(boxList) + [box.info]
    {
      box.Save();
      Append(box.info);
    }
  }
}
