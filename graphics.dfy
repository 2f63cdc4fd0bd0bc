/** The parts of the host toolkit the gear drawable uses: a mutable integer
    rectangle, a bitmap sprite with an intrinsic size and bounds, and a
    canvas with a save/restore stack of transforms. Only the behaviour the
    drawable relies on is modelled; pixels are not. */
module Graphics {

  /** The value of a rectangle: left and top inclusive, right and bottom exclusive. */
  datatype Box = Box(left: int, top: int, right: int, bottom: int)
  {
    function Width(): int { right - left }
    function Height(): int { bottom - top }

    /** Horizontal centre as the toolkit computes it: (left + right) >> 1. */
    function CenterX(): int { (left + right) / 2 }

    /** Vertical centre as the toolkit computes it: (top + bottom) >> 1. */
    function CenterY(): int { (top + bottom) / 2 }
  }

  /** A mutable rectangle whose four edges are updated in place. */
  class Rect {
    var left: int
    var top: int
    var right: int
    var bottom: int

    function Value(): Box
      reads this
    {
      Box(left, top, right, bottom)
    }

    constructor ()
      ensures Value() == Box(0, 0, 0, 0)
    {
      left, top, right, bottom := 0, 0, 0, 0;
    }

    /** Sets all four edges. */
    method Set(l: int, t: int, r: int, b: int)
      modifies this
      ensures Value() == Box(l, t, r, b)
    {
      left, top, right, bottom := l, t, r, b;
    }

    /** Moves the rectangle so its top-left corner is (newLeft, newTop),
        keeping its width and height. */
    method OffsetTo(newLeft: int, newTop: int)
      modifies this
      ensures Value() == Box(newLeft, newTop, newLeft + old(Value().Width()), newTop + old(Value().Height()))
    {
      right := right + newLeft - left;
      bottom := bottom + newTop - top;
      left := newLeft;
      top := newTop;
    }
  }

  /** A rotation of the canvas by `degrees` about the pivot (px, py). */
  datatype Rotation = Rotation(degrees: real, px: real, py: real)

  /** One sprite painted into its bounds under the transform that was current. */
  datatype Stroke = Stroke(sprite: Sprite, at: Box, transform: seq<Rotation>)

  /** A drawing surface: the current transform (the rotations applied so
      far), the stack of saved transforms, and the log of everything painted. */
  class Canvas {
    var matrix: seq<Rotation>
    var saved: seq<seq<Rotation>>
    var log: seq<Stroke>

    /** The number of saved states plus the initial one, as `getSaveCount` reports it. */
    function SaveCount(): int
      reads this
    {
      |saved| + 1
    }

    constructor ()
      ensures matrix == [] && saved == [] && log == []
    {
      matrix, saved, log := [], [], [];
    }

    /** Pushes the current transform; returns the save count from before the push. */
    method Save() returns (count: int)
      modifies this`saved
      ensures saved == old(saved) + [matrix]
      ensures count == old(SaveCount()) && SaveCount() == count + 1
    {
      count := |saved| + 1;
      saved := saved + [matrix];
    }

    /** Composes a rotation about (px, py) onto the current transform. */
    method Rotate(degrees: real, px: real, py: real)
      modifies this`matrix
      ensures matrix == old(matrix) + [Rotation(degrees, px, py)]
    {
      matrix := matrix + [Rotation(degrees, px, py)];
    }

    /** Pops saved states until the save count is `count`, making the
        transform saved at that depth current again; does nothing when the
        save count is already at most `count`. The toolkit refuses a count
        below one. */
    method RestoreToCount(count: int)
      requires 1 <= count
      modifies this`matrix, this`saved
      ensures old(SaveCount()) <= count ==> matrix == old(matrix) && saved == old(saved)
      ensures count < old(SaveCount()) ==>
        saved == old(saved)[..count - 1] && matrix == old(saved)[count - 1]
      ensures SaveCount() == if count < old(SaveCount()) then count else old(SaveCount())
    {
      if count < |saved| + 1 {
        matrix := saved[count - 1];
        saved := saved[..count - 1];
      }
    }
  }

  /** A bitmap with a fixed intrinsic size, painted into its current bounds. */
  class Sprite {
    const intrinsicWidth: int
    const intrinsicHeight: int
    var bounds: Box

    constructor (width: int, height: int)
      ensures intrinsicWidth == width && intrinsicHeight == height
      ensures bounds == Box(0, 0, 0, 0)
    {
      intrinsicWidth, intrinsicHeight := width, height;
      bounds := Box(0, 0, 0, 0);
    }

    /** Copies the rectangle's edges into the sprite's own bounds. */
    method SetBounds(r: Rect)
      modifies this`bounds
      ensures bounds == r.Value()
    {
      bounds := r.Value();
    }

    /** Paints the sprite into its bounds under the canvas's current transform. */
    method Draw(canvas: Canvas)
      modifies canvas`log
      ensures canvas.log == old(canvas.log) + [Stroke(this, bounds, canvas.matrix)]
    {
      canvas.log := canvas.log + [Stroke(this, bounds, canvas.matrix)];
    }
  }
}
