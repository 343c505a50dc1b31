# Bounding-box editor: geometry and export

A model of the core of `class_box.py`, an interactive tool that draws one
class-labelled bounding box at a time on an image and exports it as a
normalised annotation record `{label: [cx, cy, w, h]}`.

- `geometry.dfy` (module `BoxGeometry`): the rectangle `x, y, w, h` and the
  eight edge steps `top_up` ... `right_right` as functions on values, each
  with its clamp, the fields it leaves alone, the bounds it keeps and its
  zero-step behaviour; command sequences (`Replay`) with the invariant kept
  over any run; a reference definition (`Nudge`: the button moves its named
  edge by one step) that every unclamped run agrees with; and the two
  clamps that misbehave, as concrete lemmas.
- `export.dfy` (module `Export`): the export arithmetic of `save` with exact
  ratios, its inverse (a field times the image size gives back the pixel
  quantity), and the two export quirks.
- `layers.dfy` (module `Layers`): where the preview and baked composites
  land on the image (offsets only, no pixels).
- `box.dfy` (module `BoxModel`): class `Box` with the source's fields and
  one method per edge operation, each updating the fields as the source does
  and specified by the matching `BoxGeometry` function; `Paint` works on a
  copy of the image, `Save` pastes into the image itself; class `Image`
  stands for the PIL image.
- `session.dfy` (module `Session`): the working image, the current box and
  `box_list` of `MenuWindow`, with `NewBox`, `Append` and `BoxSave`.

## Behaviour kept as written

The model follows the code where it departs from what the operation names
and the tool's intent suggest:

- `left_left` (class_box.py:92): when `x` goes negative, the guard assigns
  `y = 0` and leaves `x` negative. `0 <= x` is therefore not an invariant,
  and even a zero step resets `y` when `x < 0` and `y > 0` (a state reached
  by `left_left` followed by `top_down`). For that reason the zero-step
  lemma asks that `x` be negative only when `y` is 0, in addition to the
  bounds.
- `left_right` (class_box.py:99) caps `x` at the image height. On a
  landscape image this moves the right edge. At zero step it would move a
  box with `x > imgH`, but no sequence of clicks from a new box reaches
  such a state (`ReplayKeepsXAtMostHeight`).
- No clamp keeps `x + w <= imgW` or `y + h <= imgH`, so an exported centre
  can exceed 1 (`LeftRightCanExportCentreBeyondOne`).
- `save` (class_box.py:136-140) halves with floor division `w // 2`. It also
  exports the width ratio twice: `box_h` is computed and never used.
- `paint` (class_box.py:35-38) makes the translucent wash layer the size of
  the whole image plus the border, not the size of the frame. The box layer
  is pasted without a mask, so the inside of the frame is fully transparent
  and the image shows through it unwashed.

Python's `w // 2` and Dafny's `w / 2` agree on all integers, because the
divisor is positive and both round down.

## Model

| member | source | states |
|---|---|---|
| `BoxGeometry.AfterTopUp` | class_box.py:69-73 | `y >= 0` and `h <= imgH` afterwards; `x`, `w` untouched; keeps the bounds for a non-negative step; a zero step changes nothing inside the bounds |
| `BoxGeometry.AfterTopDown` | class_box.py:75-79 | `h >= border` and `y <= imgH` afterwards; `x`, `w` untouched; keeps the bounds; zero step is a no-op |
| `BoxGeometry.AfterBottomUp` | class_box.py:81-83 | `h >= border`; only `h` changes; keeps the bounds; zero step is a no-op |
| `BoxGeometry.AfterBottomDown` | class_box.py:85-87 | `h <= imgH`; only `h` changes; keeps the bounds; zero step is a no-op |
| `BoxGeometry.AfterLeftLeft` | class_box.py:89-93 | `w <= imgW`; `h` untouched; `x` always moves by the full step (never clamped); `y` is kept or reset to 0; keeps the bounds; a zero step inside the bounds is a no-op if and only if `x >= 0` or `y == 0` |
| `BoxGeometry.AfterLeftRight` | class_box.py:95-99 | `w >= border` and `x <= imgH` (the height); `y`, `h` untouched; keeps the bounds; a zero step inside the bounds is a no-op if and only if `x <= imgH` |
| `BoxGeometry.AfterRightLeft` | class_box.py:101-103 | `w >= border`; only `w` changes; keeps the bounds; zero step is a no-op |
| `BoxGeometry.AfterRightRight` | class_box.py:105-107 | `w <= imgW`; only `w` changes; keeps the bounds; zero step is a no-op |
| `BoxGeometry.ReplayKeepsInv` | class_box.py:69-107 | any sequence of clicks with a non-negative step keeps `border <= w <= imgW`, `border <= h <= imgH`, `0 <= y <= imgH` |
| `BoxGeometry.ReplayKeepsXAtMostHeight` | class_box.py:89-99 | with a non-negative step, no sequence of clicks takes `x` above `imgH` once it is there (a new box has `x = 0`) |
| `BoxGeometry.ZeroSpeedReplayIsIdentity` | class_box.py:69-107 | with a zero step, any sequence of clicks leaves unchanged a box inside the bounds with `x <= imgH` whose `x` is negative only when `y == 0` |
| `BoxGeometry.ZeroSpeedLeftLeftResetsY` | class_box.py:89-93 | a box inside the bounds with `x < 0` and `y > 0` has its `y` reset by a zero-step `left_left` |
| `BoxGeometry.ZeroSpeedLeftRightMovesX` | class_box.py:95-99 | a box inside the bounds with `x > imgH` (landscape image; not reachable from a new box) has its `x` moved by a zero-step `left_right` |
| `BoxGeometry.FreeStepNudges` | class_box.py:69-107 | when no clamp fires, a click moves exactly the edge its button names by one step and keeps the other three edges (so top moves keep `y + h`, left moves keep `x + w`) |
| `BoxGeometry.FreeReplayNudges` | class_box.py:69-107 | when no clamp fires along a run, the edges end where the reference `NudgeAll` puts them |
| `BoxGeometry.TopMovesKeepBottomAnchor` | class_box.py:69-79 | any unclamped run of `top_up`/`top_down` keeps `y + h`, `x` and `w` |
| `BoxGeometry.LeftMovesKeepRightAnchor` | class_box.py:89-99 | any unclamped run of `left_left`/`left_right` keeps `x + w`, `y` and `h` |
| `BoxGeometry.PinnedIsFixedPoint` | class_box.py:69-107 | once a command has driven the box to its bound, clicking it again changes nothing |
| `BoxGeometry.LeftLeftNeverSettles` | class_box.py:89-93 | with a positive step every `left_left` changes the box, so it has no such bound |
| `BoxGeometry.LeftLeftLeavesXNegative` | class_box.py:92 | from a full-width box, `left_left` gives `x = -10` and `y = 0` |
| `BoxGeometry.LeftRightCapsXAtHeight` | class_box.py:99 | on a 300 x 100 image `left_right` stops `x` at 100 while `w` shrinks, moving the right edge |
| `Export.Normalised` | class_box.py:136-140 | four fields; centre times image size is `x + w // 2` (resp. `y + h // 2`); width field times `imgW` is `w`; the fourth field equals the third |
| `Export.Info` | class_box.py:140 | the record has exactly one key, the label, mapped to the four fields |
| `Export.CentreIsExactIffEvenWidth` | class_box.py:136 | the exported centre equals the exact centre `(x + w/2) / imgW` if and only if `w` is even |
| `Export.FourthFieldIsHeightIffSameAspect` | class_box.py:138-140 | the fourth field equals `h / imgH` if and only if `w * imgH == h * imgW` |
| `Export.InsideBoxExportsUnitRatios` | class_box.py:136-140 | a box lying inside the image exports ratios in `[0, 1]` |
| `Export.LeftRightCanExportCentreBeyondOne` | class_box.py:95-99 | on a 10 x 10 image one `left_right` from the full box gives a box whose exported centre is 1.1 |
| `Export.WorkedExample` | class_box.py:136-140 | 200 x 100 image, box 60 x 30 at (40, 20): `{label: [0.35, 0.35, 0.3, 0.3]}` |
| `Export.WidthExportedTwice` | class_box.py:139-140 | the same box 50 high still exports 0.3 last, where `h / imgH` is 0.5 |
| `Layers.Preview` | class_box.py:31-67 | wash over the whole image plus border at `(-border, -border)`; opaque frame with outer corner at `(x - border, y - border)`, `border` wider on every side; transparent hole exactly on the box |
| `Layers.Baked` | class_box.py:109-135 | opaque frame with outer corner at `(x - border, y - border - 11)`, 11 pixels taller on top; transparent hole exactly on the box; label drawn at `(x - border + 2, y - border - 11)` |
| `Layers.BakedExtendsPreviewUpward` | class_box.py:110-135 | the baked frame is the preview frame extended upward by the caption strip, with the same hole |
| `BoxModel.Image.Copy` | class_box.py:32 | a fresh image of the same size and contents |
| `BoxModel.Image.Paste` | class_box.py:131-135 | the composite is added on top of what the image already holds |
| `BoxModel.Box.constructor` | class_box.py:15-29 | `x = y = 0`, `w, h` the image size, step 10, border 2, empty `info`; the bounds hold when the image is at least 2 x 2 |
| `BoxModel.Box.TopUp` | class_box.py:69-73 | new geometry is `AfterTopUp` of the old one; only `y`, `h` may change; the bounds are kept |
| `BoxModel.Box.TopDown` | class_box.py:75-79 | new geometry is `AfterTopDown` of the old one; only `y`, `h` may change; the bounds are kept |
| `BoxModel.Box.BottomUp` | class_box.py:81-83 | new geometry is `AfterBottomUp` of the old one; only `h` may change; the bounds are kept |
| `BoxModel.Box.BottomDown` | class_box.py:85-87 | new geometry is `AfterBottomDown` of the old one; only `h` may change; the bounds are kept |
| `BoxModel.Box.LeftLeft` | class_box.py:89-93 | new geometry is `AfterLeftLeft` of the old one; only `x`, `y`, `w` may change; the bounds are kept |
| `BoxModel.Box.LeftRight` | class_box.py:95-99 | new geometry is `AfterLeftRight` of the old one; only `x`, `w` may change; the bounds are kept |
| `BoxModel.Box.RightLeft` | class_box.py:101-103 | new geometry is `AfterRightLeft` of the old one; only `w` may change; the bounds are kept |
| `BoxModel.Box.RightRight` | class_box.py:105-107 | new geometry is `AfterRightRight` of the old one; only `w` may change; the bounds are kept |
| `BoxModel.Box.Paint` | class_box.py:31-67 | returns a fresh copy of the image with the preview composite on top; the image and the box are unchanged |
| `BoxModel.Box.Save` | class_box.py:109-140 | the baked composite is added to the image itself; `info` is the export record; geometry, step and border unchanged |
| `Session.Session.constructor` | class_box.py:219-223 | the session holds the working image, no box and an empty `box_list` |
| `Session.Session.NewBox` | class_box.py:231 | a fresh box over the working image, in its starting state, replaces the current one; `box_list` unchanged |
| `Session.Session.Append` | class_box.py:275 | `box_list` grows by exactly the record at its end; earlier entries keep their places |
| `Session.Session.BoxSave` | class_box.py:273-275 | the current box is baked into its image and exactly its new `info` is appended to `box_list` |

## Left out

- BoxModel.Box.Save: requires a non-zero image size. On a zero-size image the source pastes the frame and then raises `ZeroDivisionError` at class_box.py:136-139; that path is excluded rather than modelled. The program never reaches it, because `zoom_img` doubles a decoded image before any box exists.
- Session.Session.BoxSave: the same zero-size exclusion, inherited from `Save`.
- Export.Normalised: the ratios are exact; the source's `round(..., 6)` on floats is not modelled (floating point).
- Pixels: `Image.new`, alpha-masked `paste`, clipping at the image edges, `ImageDraw.text` and the TrueType font are PIL calls; only where each composite lands and in which order it is pasted is modelled (`Layers`, `Image.stamps`).
- The PyQt interface (`MainWindow`, `MyButton`, menu layout and button enabling, `ChoiseClassModalWindow`, `pil2qtim`, `zoom_img`, `paint_box`): widgets and event dispatch.
- Signal wiring in `new_box_func`: every new box adds connections without removing the old ones, so one click on "Save box" runs `box_save` once per box created so far, each time on the current box. The model gives one call per commit.
- The speed buttons are never connected, so the source has no way to change `speed`; the geometry lemmas take the step as a parameter instead.
- Loading the class catalogue by `eval` of a file, and `sys.exit` on an invalid selection: file I/O and process control.
- The `__main__` block (image and font loading, application start-up) and the `print` of `box_list`: I/O.
