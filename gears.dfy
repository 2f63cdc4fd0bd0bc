/** The gears drawable: three gear sprites laid out on every bounds change
    and painted, each rotated about its own centre, on every frame. */
module Gears {
  import opened Arith
  import opened Graphics
  import opened Layout

  /** The hub turns by the clock's angle in degrees. */
  function Gear8Angle(degree: int): real
  {
    degree as real
  }

  /** gear6 turns the other way, 1.33 times as fast, ten degrees ahead. */
  function Gear6Angle(degree: int): real
  {
    -(degree as real * 1.33) + 10.0
  }

  /** gear5 turns the other way, 1.6 times as fast. */
  function Gear5Angle(degree: int): real
  {
    -(degree as real * 1.6)
  }

  /** An angle that is a whole number of full turns. */
  predicate WholeTurns(a: real)
  {
    a == a.Floor as real && a.Floor % 360 == 0
  }

  /** With the clock at zero the gears stand at 0, 10 and 0 degrees. */
  lemma AnglesAtRest()
    ensures Gear8Angle(0) == 0.0 && Gear6Angle(0) == 10.0 && Gear5Angle(0) == 0.0
  {
  }

  /** gear6 turns -1.33 and gear5 -1.6 degrees for every degree the hub turns. */
  lemma AngularSpeeds(a: int, b: int)
    ensures Gear6Angle(b) - Gear6Angle(a) == -1.33 * (Gear8Angle(b) - Gear8Angle(a))
    ensures Gear5Angle(b) - Gear5Angle(a) == -1.6 * (Gear8Angle(b) - Gear8Angle(a))
  {
  }

  /** Over one cycle of the clock, from 0 to 360, the hub comes back to its
      starting heading but neither secondary gear does: gear6 has turned
      -478.8 and gear5 -576 degrees, so both jump when the clock restarts at 0. */
  lemma CycleHeadings()
    ensures WholeTurns(Gear8Angle(360) - Gear8Angle(0))
    ensures Gear6Angle(360) - Gear6Angle(0) == -478.8 && !WholeTurns(Gear6Angle(360) - Gear6Angle(0))
    ensures Gear5Angle(360) - Gear5Angle(0) == -576.0 && !WholeTurns(Gear5Angle(360) - Gear5Angle(0))
  {
    assert (-478.8).Floor == -479;
    assert (-576.0).Floor == -576;
  }

  class GearsDrawable {
    const gear8: Sprite
    const gear6: Sprite
    const gear5: Sprite

    /** The cached placement rectangles of the three gears. */
    const g8R: Rect
    const g6R: Rect
    const g5R: Rect

    /** The cached centres of the three gears, as (x, y) pairs. */
    const g8C: array<int>
    const g6C: array<int>
    const g5C: array<int>

    /** The clock's current angle in degrees. */
    var degree: int

    /** How far the teeth of two neighbouring gears overlap, in pixels. */
    const toothDeep: int

    ghost predicate Valid()
      reads this
    {
      g8C.Length == 2 && g6C.Length == 2 && g5C.Length == 2 &&
      g8C != g6C && g8C != g5C && g6C != g5C &&
      g8R != g6R && g8R != g5R && g6R != g5R &&
      gear8 != gear6 && gear8 != gear5 && gear6 != gear5
    }

    function Size8(): Size { Size(gear8.intrinsicWidth, gear8.intrinsicHeight) }
    function Size6(): Size { Size(gear6.intrinsicWidth, gear6.intrinsicHeight) }
    function Size5(): Size { Size(gear5.intrinsicWidth, gear5.intrinsicHeight) }

    /** The cached layout: each gear's centre and rectangle. */
    ghost function Current(): Arrangement
      reads this, g8R, g6R, g5R, g8C, g6C, g5C
      requires Valid()
    {
      Arrangement(
        Placement(Point(g8C[0], g8C[1]), g8R.Value()),
        Placement(Point(g6C[0], g6C[1]), g6R.Value()),
        Placement(Point(g5C[0], g5C[1]), g5R.Value()))
    }

    /** The three sprites' bounds, which painting uses. */
    ghost function SpriteBounds(): (Box, Box, Box)
      reads this, gear8, gear6, gear5
    {
      (gear8.bounds, gear6.bounds, gear5.bounds)
    }

    /** The strokes one frame paints onto a canvas whose transform is m:
        hub, then gear6, then gear5, each under m plus its own rotation only. */
    ghost function Frame(m: seq<Rotation>): seq<Stroke>
      reads this, g8C, g6C, g5C, gear8, gear6, gear5
      requires Valid()
    {
      [Stroke(gear8, gear8.bounds, m + [Rotation(Gear8Angle(degree), g8C[0] as real, g8C[1] as real)]),
       Stroke(gear6, gear6.bounds, m + [Rotation(Gear6Angle(degree), g6C[0] as real, g6C[1] as real)]),
       Stroke(gear5, gear5.bounds, m + [Rotation(Gear5Angle(degree), g5C[0] as real, g5C[1] as real)])]
    }

    /** A drawable for the three sprites' intrinsic sizes and the tooth depth;
        the rectangles start at the sprites' intrinsic sizes at the origin. */
    constructor (s8: Size, s6: Size, s5: Size, toothDeep: int)
      ensures Valid()
      ensures fresh(gear8) && fresh(gear6) && fresh(gear5)
      ensures fresh(g8R) && fresh(g6R) && fresh(g5R)
      ensures fresh(g8C) && fresh(g6C) && fresh(g5C)
      ensures Size8() == s8 && Size6() == s6 && Size5() == s5 && this.toothDeep == toothDeep
      ensures Current() == Arrangement(Placement(Point(0, 0), PlaceAt(s8, 0, 0)),
                                       Placement(Point(0, 0), PlaceAt(s6, 0, 0)),
                                       Placement(Point(0, 0), PlaceAt(s5, 0, 0)))
      ensures degree == 0
    {
      gear8 := new Sprite(s8.width, s8.height);
      gear6 := new Sprite(s6.width, s6.height);
      gear5 := new Sprite(s5.width, s5.height);
      g8R := new Rect();
      g6R := new Rect();
      g5R := new Rect();
      g8C := new int[] [0, 0];
      g6C := new int[] [0, 0];
      g5C := new int[] [0, 0];
      degree := 0;
      this.toothDeep := toothDeep;
      new;
      ResetRect();
    }

    /** Puts each rectangle back at the origin with its sprite's intrinsic size. */
    method ResetRect()
      requires Valid()
      modifies g8R, g6R, g5R
      ensures g8R.Value() == PlaceAt(Size8(), 0, 0)
      ensures g6R.Value() == PlaceAt(Size6(), 0, 0)
      ensures g5R.Value() == PlaceAt(Size5(), 0, 0)
    {
      g8R.Set(0, 0, gear8.intrinsicWidth, gear8.intrinsicHeight);
      g6R.Set(0, 0, gear6.intrinsicWidth, gear6.intrinsicHeight);
      g5R.Set(0, 0, gear5.intrinsicWidth, gear5.intrinsicHeight);
    }

    /** Lays the gears out for new drawing bounds. The result depends only on
        the bounds' width and height, not on their position and not on any
        earlier layout, and the sprites are given the new rectangles. */
    method OnBoundsChange(bounds: Rect)
      requires Valid()
      modifies g8R, g6R, g5R, g8C, g6C, g5C, gear8`bounds, gear6`bounds, gear5`bounds
      ensures Current() == ComputeLayout(old(bounds.Value().Width()), old(bounds.Value().Height()),
                                         Size8(), Size6(), Size5(), toothDeep)
      ensures SpriteBounds() == (g8R.Value(), g6R.Value(), g5R.Value())
    {
      var width := bounds.right - bounds.left;
      var height := bounds.bottom - bounds.top;

      ResetRect();
      var hub, g8r := PlaceHub(width, height);
      PlaceBeside(gear6, g6R, g6C, Size6(), hub, g8r, true);
      PlaceBeside(gear5, g5R, g5C, Size5(), hub, g8r, false);
    }

    /** Places the hub for bounds of the given size, its rectangle being at
        the origin with the sprite's intrinsic size; returns the hub's centre
        and radius for the two gears beside it. */
    method PlaceHub(width: int, height: int) returns (hub: Point, g8r: int)
      requires Valid()
      requires g8R.Value() == PlaceAt(Size8(), 0, 0)
      modifies gear8`bounds, g8R, g8C
      ensures Placement(Point(g8C[0], g8C[1]), g8R.Value()) == HubPlacement(width, height, Size8())
      ensures gear8.bounds == g8R.Value()
      ensures hub == Point(g8C[0], g8C[1]) && g8r == Radius(Size8())
    {
      var cx := Half(width);
      var cy := Half(height);
      g8r := Half(g8R.right - g8R.left);
      hub := Point(cx - g8r, cy);
      var g8l := cx - (g8R.right - g8R.left);
      var g8t := cy - g8r;
      Place(gear8, g8R, g8C, Size8(), hub.x, hub.y, g8l, g8t);
    }

    /** Records one gear's centre, moves its rectangle, which has the
        intrinsic size s, so its top-left corner is (left, top), and hands
        the rectangle to its sprite. */
    method Place(sprite: Sprite, rect: Rect, center: array<int>, s: Size, x: int, y: int, left: int, top: int)
      requires center.Length == 2
      requires rect.Value() == PlaceAt(s, 0, 0)
      modifies sprite`bounds, rect, center
      ensures Placement(Point(center[0], center[1]), rect.Value()) == Placement(Point(x, y), PlaceAt(s, left, top))
      ensures sprite.bounds == rect.Value()
    {
      center[0] := x;
      center[1] := y;
      rect.OffsetTo(left, top);
      sprite.SetBounds(rect);
    }

    /** Places a secondary gear, whose rectangle is at the origin with the
        sprite's intrinsic size, on the diagonal from the hub centre `hub`:
        up and to the right when `up` holds, down and to the right otherwise. */
    method PlaceBeside(sprite: Sprite, rect: Rect, center: array<int>, s: Size, hub: Point, g8r: int, up: bool)
      requires center.Length == 2
      requires rect.Value() == PlaceAt(s, 0, 0)
      modifies sprite`bounds, rect, center
      ensures Placement(Point(center[0], center[1]), rect.Value()) == SidePlacement(hub, g8r, s, toothDeep, up)
      ensures sprite.bounds == rect.Value()
    {
      var r := Half(rect.right - rect.left);
      var d := DiagonalOffset(g8r + r - toothDeep);
      var x := hub.x + d;
      var y := if up then hub.y - d else hub.y + d;
      assert r == Radius(s) && Point(x, y) == Beside(hub, g8r, r, toothDeep, up);
      Place(sprite, rect, center, s, x, y, x - r, y - r);
    }

    /** The clock's update callback: takes the animated angle as the new degree. */
    method OnAnimationUpdate(animatedValue: int)
      modifies this`degree
      ensures degree == animatedValue
    {
      degree := animatedValue;
    }

    /** Paints one frame: each gear rotated about its own centre by its own
        angle, in the order hub, gear6, gear5. Every rotation is undone
        before the next gear, so the canvas's transform and save stack end
        as they began. */
    method Draw(canvas: Canvas)
      requires Valid()
      modifies canvas
      ensures canvas.matrix == old(canvas.matrix) && canvas.saved == old(canvas.saved)
      ensures canvas.SaveCount() == old(canvas.SaveCount())
      ensures canvas.log == old(canvas.log) + Frame(old(canvas.matrix))
    {
      DrawRotated(canvas, gear8, Gear8Angle(degree), g8C[0] as real, g8C[1] as real);
      DrawRotated(canvas, gear6, Gear6Angle(degree), g6C[0] as real, g6C[1] as real);
      DrawRotated(canvas, gear5, Gear5Angle(degree), g5C[0] as real, g5C[1] as real);
    }
  }

  /** One gear's block of a frame: save the canvas, rotate it about the
      gear's centre, paint the sprite, and restore to the saved count. */
  method DrawRotated(canvas: Canvas, sprite: Sprite, degrees: real, px: real, py: real)
    modifies canvas
    ensures canvas.matrix == old(canvas.matrix) && canvas.saved == old(canvas.saved)
    ensures canvas.log == old(canvas.log) + [Stroke(sprite, sprite.bounds, old(canvas.matrix) + [Rotation(degrees, px, py)])]
  {
    var count := canvas.Save();
    canvas.Rotate(degrees, px, py);
    sprite.Draw(canvas);
    canvas.RestoreToCount(count);
  }

  /** Laying out twice for bounds of one size leaves the state a single
      layout produces: the same centres and rectangles, and each sprite's
      bounds equal to its rectangle. */
  method RelayoutSameSize(g: GearsDrawable, bounds: Rect)
    requires g.Valid()
    requires bounds != g.g8R && bounds != g.g6R && bounds != g.g5R
    modifies g.g8R, g.g6R, g.g5R, g.g8C, g.g6C, g.g5C, g.gear8`bounds, g.gear6`bounds, g.gear5`bounds
    ensures g.Current() == ComputeLayout(bounds.Value().Width(), bounds.Value().Height(),
                                         g.Size8(), g.Size6(), g.Size5(), g.toothDeep)
    ensures g.SpriteBounds() == (g.g8R.Value(), g.g6R.Value(), g.g5R.Value())
  {
    g.OnBoundsChange(bounds);
    ghost var first := g.Current();
    g.OnBoundsChange(bounds);
    assert g.Current() == first;
  }
}
