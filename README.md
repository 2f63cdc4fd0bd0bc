# GearsDrawable in Dafny

A model of the Android drawable `GearsDrawable`, which paints three gear
sprites (`gear8`, the hub, and the smaller `gear6` and `gear5`) that turn
at different speeds. There are two parts:

- **Layout** (`onBoundsChange`, `resetRect`). When the drawing bounds
  change, the hub is centred half its own width left of the bounds' centre.
  `gear6` goes on the up-right 45° diagonal from the hub and `gear5` on the
  down-right one. Each is offset by `(int) ((r8 + r - toothDeep) / Math.sqrt(2))`
  in both directions. The cached rectangles and centre pairs are updated in place.
- **Drawing** (`draw`). Each frame paints hub, then `gear6`, then `gear5`.
  Each gear is rotated about its own centre by an angle derived from the
  clock value `mDegree`. Every rotation sits inside its own `save` /
  `restoreToCount` pair.

Files:

- `arith.dfy` (module `Arith`): Java's `x >> 1` as a floor halving, an
  integer square root, and `DiagonalOffset`. `DiagonalOffset` is the exact
  integer value of the truncated division by √2: `d` has the sign of `n` and
  satisfies `2d² ≤ n² < 2(|d|+1)²`. A uniqueness lemma shows these bounds
  determine it.
- `graphics.dfy` (module `Graphics`): stand-ins for the toolkit classes the
  drawable uses. `Rect` is a mutable rectangle with `set` and `offsetTo`.
  `Sprite` is a bitmap with an intrinsic size, `setBounds` and `draw`.
  `Canvas` is an abstract surface: the current transform as a list of
  rotations, a stack of saved transforms, and a log of painted strokes.
- `layout.dfy` (module `Layout`): the layout as a pure function
  `ComputeLayout` of the bounds' width and height, the three intrinsic sizes
  and the tooth depth, together with the lemmas about it.
- `gears.dfy` (module `Gears`): the class `GearsDrawable`. It has the
  cached `Rect`s, the `int[2]` centre arrays and `degree`. `OnBoundsChange`
  is proved to leave exactly `ComputeLayout(width, height, …)` in those
  fields, and `Draw` is proved to paint the three strokes in order and leave
  the canvas's transform and save stack as it found them. The rotation
  angles and the lemmas about them are in this module too.

The source writes one gear's block of statements three times over. The
model moves each block into a helper method: `PlaceHub`, `PlaceBeside` and
`Place` for the layout, `DrawRotated` for drawing. The source computes all three
centres before it moves any rectangle, while the model moves each gear's
rectangle right after its centre. All these objects are distinct, so the
final state is the same.

Three details of the code that are easy to misread:

- The bounds' centre is `width >> 1`, which rounds down, not toward zero.
  The two differ only for negative sizes.
- The hub rectangle's left edge is `cx - width8`, not `centre.x - r8`. So
  its horizontal centre is one pixel left of the hub centre when the hub
  width is odd (`HubPlacement`). The radius comes from the width alone, so
  a rectangle's vertical centre equals its gear centre exactly when
  `height >> 1 == width >> 1`, as for a square sprite (`HubPlacement`,
  `SidePlacement`).
- The rotation angles are not periodic over one clock cycle. At 360 the hub
  is back where it started, but `gear6` has turned −478.8° and `gear5`
  −576°. Neither is a whole number of turns (`CycleHeadings`).

## Model

| member | source | states |
|---|---|---|
| `Arith.Half` | src/main/java/com/simon/android/drawable/GearsDrawable.java:95-100 | `x >> 1` is the floor of x/2: `2h <= x < 2h + 2`, for either sign |
| `Arith.Isqrt` | src/main/java/com/simon/android/drawable/GearsDrawable.java:111 | the integer square root: `r² <= m < (r+1)²` |
| `Arith.DiagonalOffset` | src/main/java/com/simon/android/drawable/GearsDrawable.java:111 | `(int)(n / √2)`: `2d² <= n² < 2(|d|+1)²`, and d has the sign of n (truncation toward zero) |
| `Arith.DiagonalOffsetUnique` | src/main/java/com/simon/android/drawable/GearsDrawable.java:122 | any d with n's sign and `2d² <= n² < 2(|d|+1)²` is the offset, so the bounds characterise the cast exactly |
| `Arith.DiagonalOffsetOdd` | src/main/java/com/simon/android/drawable/GearsDrawable.java:111-122 | the offset of −n is minus the offset of n, and the offset of 0 is 0 |
| `Arith.DiagonalOffsetBound` | src/main/java/com/simon/android/drawable/GearsDrawable.java:111-122 | the offset never exceeds \|n\| in size, so a gear is never placed farther along an axis than the centre distance |
| `Arith.DiagonalOffsetPositive` | src/main/java/com/simon/android/drawable/GearsDrawable.java:113-125 | a distance of two or more pixels gives an offset of at least one |
| `Graphics.Rect.constructor` | src/main/java/com/simon/android/drawable/GearsDrawable.java:23-25 | a new rectangle is empty at the origin |
| `Graphics.Rect.Set` | src/main/java/com/simon/android/drawable/GearsDrawable.java:70-72 | `set(l, t, r, b)` makes the four edges exactly l, t, r, b |
| `Graphics.Rect.OffsetTo` | src/main/java/com/simon/android/drawable/GearsDrawable.java:133-135 | `offsetTo` puts the top-left corner at the given point and keeps width and height |
| `Graphics.Sprite.SetBounds` | src/main/java/com/simon/android/drawable/GearsDrawable.java:137-139 | the sprite's bounds become a copy of the rectangle |
| `Graphics.Sprite.Draw` | src/main/java/com/simon/android/drawable/GearsDrawable.java:158 | painting appends one stroke: this sprite, its bounds, the canvas's current transform |
| `Graphics.Canvas.Save` | src/main/java/com/simon/android/drawable/GearsDrawable.java:156 | `save` pushes the current transform and returns the save count from before the push |
| `Graphics.Canvas.Rotate` | src/main/java/com/simon/android/drawable/GearsDrawable.java:157 | `rotate` composes one rotation about the pivot onto the current transform |
| `Graphics.Canvas.RestoreToCount` | src/main/java/com/simon/android/drawable/GearsDrawable.java:159 | `restoreToCount(c)` pops back to save count c and makes the transform saved there current; it does nothing when the count is already at most c |
| `Layout.Radius` | src/main/java/com/simon/android/drawable/GearsDrawable.java:98-100 | a gear's radius is `width() >> 1`: `2r <= w < 2r + 2`; the height never enters it |
| `Layout.ComputeLayout` | src/main/java/com/simon/android/drawable/GearsDrawable.java:95-135 | the whole layout: the hub at its `HubPlacement`, gear6 and gear5 at their `SidePlacement`s against the hub's centre and radius; `SecondaryCenters`, `MirrorSymmetry`, `HeightsOnlyExtendRects` and `WorkedExample` state what follows for the three gears together |
| `Layout.HubPlacement` | src/main/java/com/simon/android/drawable/GearsDrawable.java:95-109 | the hub centre is one radius left of the bounds centre, `(W/2 - w8/2, H/2)` with all three halvings rounding down; its rectangle keeps the intrinsic width and height, ends at `W/2` and starts one radius above the centre; its horizontal centre is the hub centre for an even w8 and one pixel left of it for an odd w8; its vertical centre is the hub centre if and only if `h8 >> 1 == w8 >> 1` |
| `Layout.Beside` | src/main/java/com/simon/android/drawable/GearsDrawable.java:111-114 | a secondary centre is on the 45° diagonal from the hub, up-right (`dy == -dx`) for gear6 and down-right (`dy == dx`) for gear5; with n = `r8 + r - toothDeep`, dx has the sign of n and `2dx² <= n² < 2(|dx|+1)²`, which by `DiagonalOffsetUnique` makes dx exactly `(int)(n / √2)`; dx never exceeds n in size and is at least one once n reaches two |
| `Layout.SecondaryCenters` | src/main/java/com/simon/android/drawable/GearsDrawable.java:111-128 | gear6 is at `hub + (d6, -d6)` and gear5 at `hub + (d5, +d5)`, where d = offset of `r8 + r - toothDeep`; at a distance of two pixels or more, gear6 is right of and above the hub and gear5 right of and below it |
| `Layout.MeshDistance` | src/main/java/com/simon/android/drawable/GearsDrawable.java:111-114 | a secondary centre is one 45° step from the hub (`|dx| == |dy|`); its squared distance is at most `(r8 + r - toothDeep)²`, and one more diagonal step would exceed it |
| `Layout.SidePlacement` | src/main/java/com/simon/android/drawable/GearsDrawable.java:119-135 | a secondary gear is centred beside the hub; its rectangle keeps the intrinsic width and height and starts one radius (`w/2`) left of and above the centre, so its horizontal centre is the gear centre; its vertical centre is the gear centre if and only if `h >> 1 == w >> 1` |
| `Layout.HeightsOnlyExtendRects` | src/main/java/com/simon/android/drawable/GearsDrawable.java:98-100 | only widths give radii: changing the sprite heights moves no centre and no left or top edge, only bottom edges |
| `Layout.MirrorSymmetry` | src/main/java/com/simon/android/drawable/GearsDrawable.java:113-125 | gear6 and gear5 sit mirror-symmetrically about the horizontal line through the hub centre if and only if their diagonal offsets agree (`d6 == d5`), which includes every pair of equal radii but also unequal radii whose distances truncate to the same offset |
| `Layout.OffsetExamples` | src/main/java/com/simon/android/drawable/GearsDrawable.java:111 | `(int)(70/√2)` is 49 and `(int)(60/√2)` is 42 |
| `Layout.WorkedExample` | src/main/java/com/simon/android/drawable/GearsDrawable.java:95-135 | bounds 200×200, widths 100/60/40, tooth 10: hub (50,100), gear6 (99,51), gear5 (92,142), and their rectangles |
| `Gears.Gear8Angle` | src/main/java/com/simon/android/drawable/GearsDrawable.java:157 | the hub's angle is `mDegree` itself: 0 at rest (`AnglesAtRest`), a whole number of turns over the clock's cycle from 0 to 360 (`CycleHeadings`) |
| `Gears.Gear6Angle` | src/main/java/com/simon/android/drawable/GearsDrawable.java:163 | gear6's angle `-(mDegree·1.33)+10`: 10 at rest (`AnglesAtRest`), −1.33° per hub degree (`AngularSpeeds`), −478.8° over one cycle, not a whole number of turns (`CycleHeadings`) |
| `Gears.Gear5Angle` | src/main/java/com/simon/android/drawable/GearsDrawable.java:168 | gear5's angle `-(mDegree·1.6)`: 0 at rest (`AnglesAtRest`), −1.6° per hub degree (`AngularSpeeds`), −576° over one cycle, not a whole number of turns (`CycleHeadings`) |
| `Gears.AnglesAtRest` | src/main/java/com/simon/android/drawable/GearsDrawable.java:157-168 | at `mDegree = 0` the angles are 0, 10 and 0 |
| `Gears.AngularSpeeds` | src/main/java/com/simon/android/drawable/GearsDrawable.java:163-168 | gear6 turns −1.33° and gear5 −1.6° for each degree the hub turns |
| `Gears.CycleHeadings` | src/main/java/com/simon/android/drawable/GearsDrawable.java:44-48 | over a clock cycle from 0 to 360 the hub makes whole turns, while gear6 (−478.8°) and gear5 (−576°) do not |
| `Gears.GearsDrawable.constructor` | src/main/java/com/simon/android/drawable/GearsDrawable.java:39-42 | fresh sprites, rectangles and centre arrays; rectangles reset to the intrinsic sizes at the origin, centres (0,0), degree 0 |
| `Gears.GearsDrawable.ResetRect` | src/main/java/com/simon/android/drawable/GearsDrawable.java:69-73 | each rectangle is its sprite's intrinsic size at the origin, whatever it was before |
| `Gears.GearsDrawable.OnBoundsChange` | src/main/java/com/simon/android/drawable/GearsDrawable.java:86-140 | the centres and rectangles become `ComputeLayout` of the bounds' width and height only (not their position, not the previous layout); each sprite's bounds equal its rectangle |
| `Gears.GearsDrawable.Place` | src/main/java/com/simon/android/drawable/GearsDrawable.java:133-139 | one gear's centre is recorded, its rectangle moved to the given corner at its intrinsic size, and its sprite's bounds set to that rectangle |
| `Gears.GearsDrawable.PlaceHub` | src/main/java/com/simon/android/drawable/GearsDrawable.java:95-109 | the hub ends at exactly its `HubPlacement` for the bounds' size, and the returned centre and radius are the ones written |
| `Gears.GearsDrawable.PlaceBeside` | src/main/java/com/simon/android/drawable/GearsDrawable.java:111-120 | a secondary gear ends at exactly its `SidePlacement` beside the hub |
| `Gears.GearsDrawable.OnAnimationUpdate` | src/main/java/com/simon/android/drawable/GearsDrawable.java:51-54 | the clock's update stores the animated value as `degree` |
| `Gears.GearsDrawable.Draw` | src/main/java/com/simon/android/drawable/GearsDrawable.java:153-171 | exactly three strokes, hub then gear6 then gear5, each under the old transform plus only its own rotation (angle `degree`, `-(degree·1.33)+10`, `-(degree·1.6)` about its centre); the transform, the save stack and its depth are as before |
| `Gears.DrawRotated` | src/main/java/com/simon/android/drawable/GearsDrawable.java:156-159 | one save/rotate/draw/restore block paints one stroke under old transform + rotation and leaves the transform and stack unchanged |
| `Gears.RelayoutSameSize` | src/main/java/com/simon/android/drawable/GearsDrawable.java:90-93 | two bounds changes of the same size leave the state one change leaves (idempotence): the centres and rectangles are `ComputeLayout` of that size, and each sprite's bounds equal its rectangle |

## Left out

- The animation clock (`ValueAnimator`, lines 44-55 and `setVisible` at 142-151): start and end, repeat, linear interpolation and the 0..360 range all belong to a toolkit timer whose code is not part of this model. `degree` is whatever value the update callback delivers, and `invalidateSelf` is a host call.
- Resource loading (`setDrawables` and the dimension constants, lines 57-67) is I/O against the toolkit's resource system. The sprite sizes and the tooth depth are constructor parameters; the intrinsic width and height of the whole drawable, and their getters (75-83), only return constants.
- `setAlpha`, `setColorFilter` and `getOpacity` (173-186) are empty or return a constant.
- `super.onBoundsChange` (line 88) is the toolkit base class's hook, which does nothing here.
- Arith.DiagonalOffset: the exact real quotient n / √2 is used, not Java's double arithmetic with the rounded constant `Math.sqrt(2)`. The two agree except possibly where n / √2 lies within rounding error of an integer, which happens only for very large n.
- Gears.GearsDrawable.Draw: the angles are exact reals (`1.33`, `1.6`), not Java `float` products.
- Pixels: painting is recorded as strokes (sprite, bounds, transform), not rendered.
- Java's 32-bit `int` overflow is not modelled. Integers are unbounded; the arithmetic (`>> 1` as floor halving) is exact for any sign.
- Graphics.Canvas.RestoreToCount requires a count of at least one, because the toolkit rejects smaller counts. `draw` only passes counts returned by `save`.
