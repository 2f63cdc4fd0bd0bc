/** The gear layout computed on a bounds change, as a pure function of the
    bounds' size, the three sprites' intrinsic sizes and the tooth depth. */
module Layout {
  import opened Arith
  import opened Graphics

  datatype Point = Point(x: int, y: int)

  /** A sprite's intrinsic width and height. */
  datatype Size = Size(width: int, height: int)

  /** Where one gear goes: the pivot it turns about and the rectangle it is painted into. */
  datatype Placement = Placement(center: Point, rect: Box)

  /** The placements of the hub (gear8) and of the two gears beside it. */
  datatype Arrangement = Arrangement(g8: Placement, g6: Placement, g5: Placement)

  /** The sprite's intrinsic rectangle moved so that its top-left corner is (left, top). */
  function PlaceAt(s: Size, left: int, top: int): Box
  {
    Box(left, top, left + s.width, top + s.height)
  }

  /** A gear's radius: half its intrinsic width rounded down, as `width() >> 1`;
      the height is never used. */
  function Radius(s: Size): (r: int)
    ensures 2 * r <= s.width < 2 * r + 2
  {
    Half(s.width)
  }

  /** The centre of a secondary gear of radius r beside a hub of radius r8
      centred at c8: on the 45 degree diagonal that goes up or down to the
      right (y grows downwards), offset in both directions by the truncated
      (r8 + r - toothDeep) / sqrt(2): the offset has the sign of that
      distance n and 2 dx^2 <= n^2 < 2 (|dx| + 1)^2, which pins it down
      (`DiagonalOffsetUnique`). It is never farther along an axis than n,
      and is strictly to the right once n reaches two pixels. */
  function Beside(c8: Point, r8: int, r: int, toothDeep: int, up: bool): (c: Point)
    ensures var n, dx, dy := r8 + r - toothDeep, c.x - c8.x, c.y - c8.y;
      (if up then dy == -dx else dy == dx) &&
      2 * (Abs(dx) * Abs(dx)) <= n * n < 2 * ((Abs(dx) + 1) * (Abs(dx) + 1)) &&
      Abs(dx) <= Abs(n) &&
      (n >= 0 ==> dx >= 0) && (n <= 0 ==> dx <= 0) &&
      (n >= 2 ==> dx >= 1)
  {
    var n := r8 + r - toothDeep;
    DiagonalOffsetPositive(n);
    DiagonalOffsetBound(n);
    var d := DiagonalOffset(n);
    Point(c8.x + d, if up then c8.y - d else c8.y + d)
  }

  /** The hub's placement for bounds of the given size. Its centre is one
      radius left of the bounds' centre, both halvings rounding down. Its
      rectangle keeps the sprite's intrinsic size, ends at the bounds'
      horizontal centre and starts one radius above the hub's centre. The
      left edge is a whole width left of the bounds' centre, so the
      rectangle's own horizontal centre is the hub's centre for an even
      width and one pixel left of it for an odd width. Its vertical centre
      is the hub's centre exactly when height and width halve to the same
      value, as for a square sprite. */
  function HubPlacement(width: int, height: int, s8: Size): (p: Placement)
    ensures 2 * (p.center.x + Radius(s8)) <= width < 2 * (p.center.x + Radius(s8)) + 2
    ensures 2 * p.center.y <= height < 2 * p.center.y + 2
    ensures p.rect.Width() == s8.width && p.rect.Height() == s8.height
    ensures p.rect.right == p.center.x + Radius(s8)
    ensures p.rect.top == p.center.y - Radius(s8)
    ensures s8.width % 2 == 0 ==> p.rect.CenterX() == p.center.x
    ensures s8.width % 2 == 1 ==> p.rect.CenterX() == p.center.x - 1
    ensures p.rect.CenterY() == p.center.y <==> Half(s8.height) == Half(s8.width)
  {
    var cx := Half(width);
    var cy := Half(height);
    var r8 := Radius(s8);
    assert s8.width == 2 * r8 + s8.width % 2;
    Placement(Point(cx - r8, cy), PlaceAt(s8, cx - s8.width, cy - r8))
  }

  /** A secondary gear's placement beside a hub of radius r8 centred at c8.
      Its rectangle keeps the sprite's intrinsic size and starts one radius
      left of and above its centre, so the rectangle's horizontal centre is
      the gear's centre. Its vertical centre is the gear's centre exactly
      when height and width halve to the same value, as for a square sprite. */
  function SidePlacement(c8: Point, r8: int, s: Size, toothDeep: int, up: bool): (p: Placement)
    ensures p.center == Beside(c8, r8, Radius(s), toothDeep, up)
    ensures p.rect.Width() == s.width && p.rect.Height() == s.height
    ensures p.rect.left == p.center.x - Radius(s) && p.rect.top == p.center.y - Radius(s)
    ensures p.rect.CenterX() == p.center.x
    ensures p.rect.CenterY() == p.center.y <==> Half(s.height) == Half(s.width)
  {
    var r := Radius(s);
    assert s.width == 2 * r + s.width % 2;
    var c := Beside(c8, r8, r, toothDeep, up);
    Placement(c, PlaceAt(s, c.x - r, c.y - r))
  }

  /** The layout for drawing bounds of the given width and height: the two
      secondary gears are placed against the hub's centre and radius. */
  function ComputeLayout(width: int, height: int, s8: Size, s6: Size, s5: Size, toothDeep: int): Arrangement
  {
    var g8 := HubPlacement(width, height, s8);
    Arrangement(g8,
           SidePlacement(g8.center, Radius(s8), s6, toothDeep, true),
           SidePlacement(g8.center, Radius(s8), s5, toothDeep, false))
  }

  /** gear6 sits on the up-right and gear5 on the down-right diagonal from
      the hub, each offset by the truncated (r8 + r - toothDeep) / sqrt(2)
      in both directions; once that distance is at least two pixels the
      offsets are positive, so gear6 is above and gear5 below the hub. */
  lemma SecondaryCenters(width: int, height: int, s8: Size, s6: Size, s5: Size, toothDeep: int)
    ensures var l := ComputeLayout(width, height, s8, s6, s5, toothDeep);
      var d6 := DiagonalOffset(Radius(s8) + Radius(s6) - toothDeep);
      var d5 := DiagonalOffset(Radius(s8) + Radius(s5) - toothDeep);
      l.g6.center == Point(l.g8.center.x + d6, l.g8.center.y - d6) &&
      l.g5.center == Point(l.g8.center.x + d5, l.g8.center.y + d5) &&
      (Radius(s8) + Radius(s6) - toothDeep >= 2 ==> l.g6.center.x > l.g8.center.x && l.g6.center.y < l.g8.center.y) &&
      (Radius(s8) + Radius(s5) - toothDeep >= 2 ==> l.g5.center.x > l.g8.center.x && l.g5.center.y > l.g8.center.y)
  {
  }

  /** A secondary gear and the hub are a 45 degree step apart (|dx| == |dy|),
      and the square of the distance between their centres is at most
      n^2, n = r8 + r - toothDeep, while one more diagonal step would
      exceed it: the centres are as far apart as the overlapping radii
      allow, rounded down to whole steps. */
  lemma MeshDistance(c8: Point, r8: int, r: int, toothDeep: int, up: bool)
    ensures var c := Beside(c8, r8, r, toothDeep, up);
      var n := r8 + r - toothDeep;
      var dx, dy := c.x - c8.x, c.y - c8.y;
      Abs(dx) == Abs(dy) &&
      dx * dx + dy * dy <= n * n < 2 * ((Abs(dx) + 1) * (Abs(dx) + 1))
  {
    var d := DiagonalOffset(r8 + r - toothDeep);
    assert d * d == Abs(d) * Abs(d);
    assert (-d) * (-d) == d * d;
  }

  /** Only the sprites' widths place the gears: changing any height moves no
      centre and no left or top edge, only the bottom edges. */
  lemma HeightsOnlyExtendRects(width: int, height: int, s8: Size, s6: Size, s5: Size, toothDeep: int,
                               h8: int, h6: int, h5: int)
    ensures var l := ComputeLayout(width, height, s8, s6, s5, toothDeep);
      var m := ComputeLayout(width, height, Size(s8.width, h8), Size(s6.width, h6), Size(s5.width, h5), toothDeep);
      m.g8 == Placement(l.g8.center, l.g8.rect.(bottom := l.g8.rect.top + h8)) &&
      m.g6 == Placement(l.g6.center, l.g6.rect.(bottom := l.g6.rect.top + h6)) &&
      m.g5 == Placement(l.g5.center, l.g5.rect.(bottom := l.g5.rect.top + h5))
  {
    assert Radius(Size(s8.width, h8)) == Radius(s8);
    assert Radius(Size(s6.width, h6)) == Radius(s6);
    assert Radius(Size(s5.width, h5)) == Radius(s5);
  }

  /** The two secondary gears are mirror images of each other in the
      horizontal line through the hub's centre exactly when their diagonal
      offsets agree; in particular whenever their radii are equal. */
  lemma MirrorSymmetry(width: int, height: int, s8: Size, s6: Size, s5: Size, toothDeep: int)
    ensures var l := ComputeLayout(width, height, s8, s6, s5, toothDeep);
      (l.g6.center.x == l.g5.center.x &&
       l.g6.center.y - l.g8.center.y == -(l.g5.center.y - l.g8.center.y)) <==>
      DiagonalOffset(Radius(s8) + Radius(s6) - toothDeep) == DiagonalOffset(Radius(s8) + Radius(s5) - toothDeep)
    ensures var l := ComputeLayout(width, height, s8, s6, s5, toothDeep);
      Radius(s6) == Radius(s5) ==>
        l.g6.center.x == l.g5.center.x &&
        l.g6.center.y - l.g8.center.y == -(l.g5.center.y - l.g8.center.y)
  {
  }

  /** The diagonal offsets the worked example below needs. */
  lemma OffsetExamples()
    ensures DiagonalOffset(70) == 49 && DiagonalOffset(60) == 42
  {
    assert 2 * (49 * 49) <= 70 * 70 < 2 * (50 * 50);
    DiagonalOffsetUnique(70, 49);
    assert 2 * (42 * 42) <= 60 * 60 < 2 * (43 * 43);
    DiagonalOffsetUnique(60, 42);
  }

  /** The hub placement of the worked example below. */
  lemma HubExample()
    ensures HubPlacement(200, 200, Size(100, 100)) == Placement(Point(50, 100), Box(0, 50, 100, 150))
  {
  }

  /** The secondary placements of the worked example below. */
  lemma SideExamples()
    ensures SidePlacement(Point(50, 100), 50, Size(60, 60), 10, true) == Placement(Point(99, 51), Box(69, 21, 129, 81))
    ensures SidePlacement(Point(50, 100), 50, Size(40, 40), 10, false) == Placement(Point(92, 142), Box(72, 122, 112, 162))
  {
    OffsetExamples();
    assert Radius(Size(60, 60)) == 30 && Radius(Size(40, 40)) == 20;
  }

  /** Bounds of 200 x 200, square sprites 100, 60 and 40 wide and a tooth
      depth of 10 put the hub at (50, 100), gear6 at (99, 51) and gear5 at (92, 142). */
  lemma WorkedExample()
    ensures var l := ComputeLayout(200, 200, Size(100, 100), Size(60, 60), Size(40, 40), 10);
      l.g8.center == Point(50, 100) && l.g6.center == Point(99, 51) && l.g5.center == Point(92, 142) &&
      l.g8.rect == Box(0, 50, 100, 150) && l.g6.rect == Box(69, 21, 129, 81) && l.g5.rect == Box(72, 122, 112, 162)
  {
    HubExample();
    SideExamples();
  }
}
