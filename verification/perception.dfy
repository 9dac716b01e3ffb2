/** perception_step of perception.py without the camera warp and the
    trigonometry: colour thresholding of the warped image into the
    navigable, obstacle and rock masks, rover-centric pixel coordinates,
    the distance cutoffs and the left-angle filter, the rover-to-world
    transform with its clipping, and the stability-gated world-map write. */
module Perception {
  import opened Numerics
  import opened RoverState

  // ------------------------------------------------------------ thresholds

  /** A pixel of the warped camera image. */
  datatype Pixel = Pixel(r: int, g: int, b: int)

  /** color_thresh's default: every channel strictly above 160. */
  const NAV_THRESH: int := 160

  /** rock_thresh's defaults: every channel strictly between these. */
  const ROCK_LOW: Pixel := Pixel(130, 105, 0)
  const ROCK_HIGH: Pixel := Pixel(220, 190, 70)

  /** The two colour classes the image is thresholded into. */
  datatype Band = NavigableBand | RockBand

  predicate Navigable(p: Pixel)
  {
    p.r > NAV_THRESH && p.g > NAV_THRESH && p.b > NAV_THRESH
  }

  predicate RockColoured(p: Pixel)
  {
    ROCK_LOW.r < p.r < ROCK_HIGH.r && ROCK_LOW.g < p.g < ROCK_HIGH.g && ROCK_LOW.b < p.b < ROCK_HIGH.b
  }

  predicate InBand(band: Band, p: Pixel)
  {
    match band
    case NavigableBand => Navigable(p)
    case RockBand => RockColoured(p)
  }

  /** A row-major grid of values. */
  type Grid<T> = seq<seq<T>>

  /** Every row of g has width w. */
  predicate Shaped<T>(g: Grid<T>, h: int, w: int)
  {
    |g| == h && forall i :: 0 <= i < |g| ==> |g[i]| == w
  }

  /** The contents of a two-dimensional array as a grid. */
  function Cells<T>(a: array2<T>): (g: Grid<T>)
    reads a
    ensures Shaped(g, a.Length0, a.Length1)
    ensures forall i, j :: 0 <= i < a.Length0 && 0 <= j < a.Length1 ==> g[i][j] == a[i, j]
  {
    seq(a.Length0, i requires 0 <= i < a.Length0 reads a =>
      seq(a.Length1, j requires 0 <= j < a.Length1 reads a => a[i, j]))
  }

  /** Two grids of one shape that agree cell by cell are equal. */
  lemma GridsEqual<T>(g: Grid<T>, h: Grid<T>)
    requires |g| == |h|
    requires forall i :: 0 <= i < |g| ==> |g[i]| == |h[i]|
    requires forall i, j :: 0 <= i < |g| && 0 <= j < |g[i]| ==> g[i][j] == h[i][j]
    ensures g == h
  {
    forall i | 0 <= i < |g|
      ensures g[i] == h[i]
    {
      assert forall j :: 0 <= j < |g[i]| ==> g[i][j] == h[i][j];
    }
  }

  function Indicator(b: bool): int { if b then 1 else 0 }

  /** The binary mask of a colour class: 1 where the pixel is in the class,
      0 elsewhere, on the image's own shape. */
  function Mask(im: Grid<Pixel>, band: Band): Grid<int>
  {
    seq(|im|, i requires 0 <= i < |im| =>
      seq(|im[i]|, j requires 0 <= j < |im[i]| => Indicator(InBand(band, im[i][j]))))
  }

  /** A mask is binary, has the image's shape and is 1 exactly on the
      pixels of its class. */
  lemma MaskMeaning(im: Grid<Pixel>, band: Band)
    ensures var m := Mask(im, band);
      && |m| == |im|
      && (forall i :: 0 <= i < |im| ==> |m[i]| == |im[i]|)
      && (forall i, j :: 0 <= i < |im| && 0 <= j < |im[i]| ==>
            (m[i][j] == 1 <==> InBand(band, im[i][j])) && (m[i][j] == 0 <==> !InBand(band, im[i][j])))
  {
  }

  /** The thresholding loop shared by color_thresh and rock_thresh: a new
      array of the image's size, 1 where the pixel is in the class. */
  method Threshold(img: array2<Pixel>, band: Band) returns (sel: array2<int>)
    ensures sel.Length0 == img.Length0 && sel.Length1 == img.Length1
    ensures Cells(sel) == Mask(Cells(img), band)
  {
    sel := new int[img.Length0, img.Length1];
    var i := 0;
    while i < img.Length0
      invariant 0 <= i <= img.Length0
      invariant forall y, x :: 0 <= y < i && 0 <= x < img.Length1 ==>
        sel[y, x] == Indicator(InBand(band, img[y, x]))
    {
      var j := 0;
      while j < img.Length1
        invariant 0 <= j <= img.Length1
        invariant forall y, x :: 0 <= y < i && 0 <= x < img.Length1 ==>
          sel[y, x] == Indicator(InBand(band, img[y, x]))
        invariant forall x :: 0 <= x < j ==> sel[i, x] == Indicator(InBand(band, img[i, x]))
      {
        sel[i, j] := if InBand(band, img[i, j]) then 1 else 0;
        j := j + 1;
      }
      i := i + 1;
    }
    GridsEqual(Cells(sel), Mask(Cells(img), band));
  }

  /** color_thresh with its default threshold. */
  method ColorThresh(img: array2<Pixel>) returns (sel: array2<int>)
    ensures sel.Length0 == img.Length0 && sel.Length1 == img.Length1
    ensures forall i, j :: 0 <= i < img.Length0 && 0 <= j < img.Length1 ==>
      (sel[i, j] == 1 <==> Navigable(img[i, j])) && (sel[i, j] == 0 <==> !Navigable(img[i, j]))
    ensures Cells(sel) == Mask(Cells(img), NavigableBand)
  {
    sel := Threshold(img, NavigableBand);
    assert forall i, j :: 0 <= i < img.Length0 && 0 <= j < img.Length1 ==>
      sel[i, j] == Cells(sel)[i][j] == Mask(Cells(img), NavigableBand)[i][j];
  }

  /** rock_thresh with its default bounds. */
  method RockThresh(img: array2<Pixel>) returns (sel: array2<int>)
    ensures sel.Length0 == img.Length0 && sel.Length1 == img.Length1
    ensures forall i, j :: 0 <= i < img.Length0 && 0 <= j < img.Length1 ==>
      (sel[i, j] == 1 <==> RockColoured(img[i, j])) && (sel[i, j] == 0 <==> !RockColoured(img[i, j]))
    ensures Cells(sel) == Mask(Cells(img), RockBand)
  {
    sel := Threshold(img, RockBand);
    assert forall i, j :: 0 <= i < img.Length0 && 0 <= j < img.Length1 ==>
      sel[i, j] == Cells(sel)[i][j] == Mask(Cells(img), RockBand)[i][j];
  }

  /** |nav - 1| * mask, cell by cell. */
  function ObstacleMask(nav: Grid<int>, mask: Grid<int>): Grid<int>
    requires |nav| == |mask| && forall i :: 0 <= i < |nav| ==> |nav[i]| == |mask[i]|
  {
    seq(|nav|, i requires 0 <= i < |nav| =>
      seq(|nav[i]|, j requires 0 <= j < |nav[i]| =>
        (if nav[i][j] - 1 < 0 then 1 - nav[i][j] else nav[i][j] - 1) * mask[i][j]))
  }

  /** No pixel is both navigable and rock: one needs blue above 160, the
      other blue below 70. */
  lemma NavigableIsNeverRock(im: Grid<Pixel>)
    ensures forall i, j :: 0 <= i < |im| && 0 <= j < |im[i]| ==>
      !(Mask(im, NavigableBand)[i][j] == 1 && Mask(im, RockBand)[i][j] == 1)
  {
  }

  /** The obstacle value is 0 wherever the navigable mask is 1, and it is
      the warp mask's value wherever the navigable mask is 0. */
  lemma ObstacleOffNavigable(im: Grid<Pixel>, mask: Grid<int>)
    requires |mask| == |im| && forall i :: 0 <= i < |im| ==> |mask[i]| == |im[i]|
    ensures var nav := Mask(im, NavigableBand);
      var obs := ObstacleMask(nav, mask);
      forall i, j :: 0 <= i < |im| && 0 <= j < |im[i]| ==>
        && (nav[i][j] == 1 ==> obs[i][j] == 0)
        && (nav[i][j] == 0 ==> obs[i][j] == mask[i][j])
  {
  }

  // ------------------------------------------------------- rover coordinates

  /** A (row, column) position in a grid. */
  datatype Index = Index(row: int, col: int)

  /** Row-major order: a comes strictly before b. */
  predicate Before(a: Index, b: Index)
  {
    a.row < b.row || (a.row == b.row && a.col < b.col)
  }

  predicate RowMajor(s: seq<Index>)
  {
    forall a, b :: 0 <= a < b < |s| ==> Before(s[a], s[b])
  }

  /** The nonzero columns of one row, as indices in that row, left to right. */
  function RowNonzero(row: seq<int>, i: int): (s: seq<Index>)
    ensures forall k :: 0 <= k < |s| ==> s[k].row == i && 0 <= s[k].col < |row| && row[s[k].col] != 0
    ensures forall c :: 0 <= c < |row| && row[c] != 0 ==> Index(i, c) in s
    ensures RowMajor(s)
  {
    if |row| == 0 then []
    else
      var front := RowNonzero(row[..|row| - 1], i);
      assert forall k :: 0 <= k < |front| ==> row[front[k].col] == row[..|row| - 1][front[k].col];
      front + (if row[|row| - 1] != 0 then [Index(i, |row| - 1)] else [])
  }

  /** The contract of Nonzero on a grid: sound, complete and in row-major
      order. */
  predicate ListsNonzero(g: Grid<int>, s: seq<Index>)
  {
    && (forall k :: 0 <= k < |s| ==>
          0 <= s[k].row < |g| && 0 <= s[k].col < |g[s[k].row]| && g[s[k].row][s[k].col] != 0)
    && (forall i, c :: 0 <= i < |g| && 0 <= c < |g[i]| && g[i][c] != 0 ==> Index(i, c) in s)
    && RowMajor(s)
  }

  /** The indices of the rows above followed by those of the last row list
      the nonzero cells of the whole grid. */
  lemma NonzeroAppend(g: Grid<int>, n: int, front: seq<Index>, last: seq<Index>)
    requires n == |g| - 1 >= 0 && ListsNonzero(g[..n], front)
    requires forall k :: 0 <= k < |last| ==>
      last[k].row == n && 0 <= last[k].col < |g[n]| && g[n][last[k].col] != 0
    requires forall c :: 0 <= c < |g[n]| && g[n][c] != 0 ==> Index(n, c) in last
    requires RowMajor(last)
    ensures ListsNonzero(g, front + last)
  {
    var s := front + last;
    forall k | 0 <= k < |s|
      ensures 0 <= s[k].row < |g| && 0 <= s[k].col < |g[s[k].row]| && g[s[k].row][s[k].col] != 0
    {
      if k < |front| {
        assert g[..n][front[k].row] == g[front[k].row];
      }
    }
    forall i, c | 0 <= i < |g| && 0 <= c < |g[i]| && g[i][c] != 0
      ensures Index(i, c) in s
    {
      if i < n {
        assert g[..n][i] == g[i];
      }
    }
    forall a, b | 0 <= a < b < |s|
      ensures Before(s[a], s[b])
    {
      if b < |front| {
      } else if a >= |front| {
        assert s[a] == last[a - |front|] && s[b] == last[b - |front|];
      } else {
        assert s[a].row < n && s[b].row == n;
      }
    }
  }

  /** numpy's nonzero: every nonzero cell's index exactly once, in
      row-major order. */
  function Nonzero(g: Grid<int>): (s: seq<Index>)
    ensures ListsNonzero(g, s)
  {
    if |g| == 0 then []
    else
      var n := |g| - 1;
      var front := Nonzero(g[..n]);
      var last := RowNonzero(g[n], n);
      NonzeroAppend(g, n, front, last);
      front + last
  }

  /** An index taken twice would break the strict order, so nonzero lists
      each pixel once. */
  lemma NonzeroOnce(g: Grid<int>)
    ensures forall a, b :: 0 <= a < b < |Nonzero(g)| ==> Nonzero(g)[a] != Nonzero(g)[b]
  {
  }

  /** A point of the rover's frame: x forward, y to the left. */
  datatype Point = Point(x: real, y: real)

  /** A nonzero pixel of an image of h rows in the rover's frame, taking
      column `centre` as straight ahead. */
  function ToRover(p: Index, h: int, centre: int): Point
  {
    Point((if p.row - h < 0 then h - p.row else p.row - h) as real, -(p.col - centre) as real)
  }

  function ToRoverAll(s: seq<Index>, h: int, centre: int): (pts: seq<Point>)
    ensures |pts| == |s|
    ensures forall k :: 0 <= k < |s| ==> pts[k] == ToRover(s[k], h, centre)
  {
    seq(|s|, k requires 0 <= k < |s| => ToRover(s[k], h, centre))
  }

  /** The width of an image: its first row's length. */
  function Width(g: Grid<int>): int
  {
    if |g| == 0 then 0 else |g[0]|
  }

  /** rover_coords as written: the row count is used as the column of
      straight ahead. */
  function RoverCoordsAsWritten(g: Grid<int>): seq<Point>
  {
    ToRoverAll(Nonzero(g), |g|, |g|)
  }

  /** rover_coords with the middle column, shape[1] / 2, as straight ahead. */
  function RoverCoords(g: Grid<int>): seq<Point>
  {
    ToRoverAll(Nonzero(g), |g|, Width(g) / 2)
  }

  /** One point per nonzero pixel, in nonzero order: the row gives the
      forward distance H - row, at least 1, so every point is ahead of the
      rover; the column gives the lateral offset from the middle column,
      positive to its left. */
  lemma RoverCoordsMeaning(g: Grid<int>)
    ensures var pts := RoverCoords(g);
      && |pts| == |Nonzero(g)|
      && forall k :: 0 <= k < |pts| ==>
           && pts[k].x == (|g| - Nonzero(g)[k].row) as real
           && 1.0 <= pts[k].x <= |g| as real
           && pts[k].y == (Width(g) / 2 - Nonzero(g)[k].col) as real
  {
  }

  /** A pixel in the middle column of an image of even width is straight
      ahead, and mirror columns about it get opposite offsets. */
  lemma RoverCoordsCentred(g: Grid<int>, a: Index, b: Index)
    requires Width(g) % 2 == 0
    requires a.col - Width(g) / 2 == Width(g) / 2 - b.col
    ensures ToRover(Index(a.row, Width(g) / 2), |g|, Width(g) / 2).y == 0.0
    ensures ToRover(a, |g|, Width(g) / 2).y == -ToRover(b, |g|, Width(g) / 2).y
  {
  }

  /** On the simulator's camera, 160 rows by 320 columns, and on any image
      twice as wide as high, the code as written computes the same points. */
  lemma AsWrittenAgreesWhenTwiceAsWide(g: Grid<int>)
    requires Width(g) == 2 * |g|
    ensures RoverCoordsAsWritten(g) == RoverCoords(g)
  {
  }

  /** The one nonzero pixel of a one-row image. */
  lemma NonzeroOfSample()
    ensures Nonzero([[0, 0, 1, 0]]) == [Index(0, 2)]
  {
    assert RowNonzero([], 0) == [];
    assert [0][..0] == [];
    assert RowNonzero([0], 0) == [];
    assert [0, 0][..1] == [0];
    assert RowNonzero([0, 0], 0) == [];
    assert [0, 0, 1][..2] == [0, 0];
    assert RowNonzero([0, 0, 1], 0) == [Index(0, 2)];
    assert [0, 0, 1, 0][..3] == [0, 0, 1];
    assert RowNonzero([0, 0, 1, 0], 0) == [Index(0, 2)];
    assert [[0, 0, 1, 0]][..0] == [];
  }

  /** On a one-row image four pixels wide, the pixel in the middle column
      is straight ahead, but the code as written puts it one unit to the
      right. */
  lemma AsWrittenMisplacesCentre()
    ensures RoverCoords([[0, 0, 1, 0]]) == [Point(1.0, 0.0)]
    ensures RoverCoordsAsWritten([[0, 0, 1, 0]]) == [Point(1.0, -1.0)]
  {
    NonzeroOfSample();
    var g := [[0, 0, 1, 0]];
    assert Width(g) / 2 == 2;
    assert ToRover(Index(0, 2), 1, 2) == Point(1.0, 0.0);
    assert ToRover(Index(0, 2), 1, 1) == Point(1.0, -1.0);
  }

  // ---------------------------------------------------------- to the world

  /** cos and sin of the rover's yaw. */
  datatype Rotation = Rotation(cos: real, sin: real)

  predicate OnUnitCircle(rot: Rotation)
  {
    rot.cos * rot.cos + rot.sin * rot.sin == 1.0
  }

  /** rotate_pixels. */
  function Rotate(p: Point, rot: Rotation): Point
  {
    Point(p.x * rot.cos - p.y * rot.sin, p.x * rot.sin + p.y * rot.cos)
  }

  /** inv_rotate_pixels. */
  function InvRotate(p: Point, rot: Rotation): Point
  {
    Point(p.x * rot.cos + p.y * rot.sin, -p.x * rot.sin + p.y * rot.cos)
  }

  /** Rotating back undoes rotating, either way round, when the pair lies on
      the unit circle. */
  lemma RotateRoundTrip(p: Point, rot: Rotation)
    requires OnUnitCircle(rot)
    ensures InvRotate(Rotate(p, rot), rot) == p
    ensures Rotate(InvRotate(p, rot), rot) == p
  {
    var c, s := rot.cos, rot.sin;
    assert (p.x * c - p.y * s) * c + (p.x * s + p.y * c) * s == p.x * (c * c + s * s);
    assert -(p.x * c - p.y * s) * s + (p.x * s + p.y * c) * c == p.y * (c * c + s * s);
    assert (p.x * c + p.y * s) * c - (-p.x * s + p.y * c) * s == p.x * (c * c + s * s);
    assert (p.x * c + p.y * s) * s + (-p.x * s + p.y * c) * c == p.y * (c * c + s * s);
  }

  /** translate_pixels' default scale factor: ten rover pixels per world cell. */
  const SCALE: real := 10.0

  /** translate_pixels. */
  function Translate(p: Point, t: Point, scale: real): Point
    requires scale != 0.0
  {
    Point(p.x / scale + t.x, p.y / scale + t.y)
  }

  /** inv_translate_pixels. */
  function InvTranslate(p: Point, t: Point, scale: real): Point
  {
    Point((p.x - t.x) * scale, (p.y - t.y) * scale)
  }

  /** Translating back undoes translating, either way round, for any
      non-zero scale. */
  lemma TranslateRoundTrip(p: Point, t: Point, scale: real)
    requires scale != 0.0
    ensures InvTranslate(Translate(p, t, scale), t, scale) == p
    ensures Translate(InvTranslate(p, t, scale), t, scale) == p
  {
    assert (p.x / scale + t.x - t.x) * scale == p.x;
    assert (p.y / scale + t.y - t.y) * scale == p.y;
  }

  /** A cell of the world map: column x, row y. */
  datatype Cell = Cell(x: int, y: int)

  /** The world point of a rover point before truncation. */
  function ToWorld(p: Point, pos: Point, rot: Rotation): Point
  {
    Translate(Rotate(p, rot), pos, SCALE)
  }

  /** pix_to_world for one point: truncate toward zero, then clip to the map. */
  function PixToWorld(p: Point, pos: Point, rot: Rotation, worldSize: int): (c: Cell)
    requires worldSize >= 1
    ensures 0 <= c.x < worldSize && 0 <= c.y < worldSize
    ensures var w := ToWorld(p, pos, rot);
      && (0 <= Trunc(w.x) < worldSize ==> c.x == Trunc(w.x))
      && (0 <= Trunc(w.y) < worldSize ==> c.y == Trunc(w.y))
      && (Trunc(w.x) < 0 ==> c.x == 0) && (Trunc(w.x) >= worldSize ==> c.x == worldSize - 1)
      && (Trunc(w.y) < 0 ==> c.y == 0) && (Trunc(w.y) >= worldSize ==> c.y == worldSize - 1)
  {
    var w := ToWorld(p, pos, rot);
    Cell(ClipInt(Trunc(w.x), 0, worldSize - 1), ClipInt(Trunc(w.y), 0, worldSize - 1))
  }

  /** pix_to_rover: the inverse translation, then the inverse rotation. */
  function PixToRover(w: Point, pos: Point, rot: Rotation): Point
  {
    InvRotate(InvTranslate(w, pos, SCALE), rot)
  }

  /** pix_to_rover recovers a rover point from its unclipped world point. */
  lemma PixToRoverUndoesToWorld(p: Point, pos: Point, rot: Rotation)
    requires OnUnitCircle(rot)
    ensures PixToRover(ToWorld(p, pos, rot), pos, rot) == p
  {
    TranslateRoundTrip(Rotate(p, rot), pos, SCALE);
    RotateRoundTrip(p, rot);
  }

  /** The world cells of a run of rover points; all lie on the world map. */
  function WorldCells(pts: seq<Point>, pos: Point, rot: Rotation): (cells: seq<Cell>)
    ensures |cells| == |pts|
    ensures forall k :: 0 <= k < |cells| ==>
      0 <= cells[k].x < WORLD_SIZE && 0 <= cells[k].y < WORLD_SIZE
  {
    seq(|pts|, k requires 0 <= k < |pts| => PixToWorld(pts[k], pos, rot, WORLD_SIZE))
  }

  // ------------------------------------------------------ cutoffs and filter

  /** nav_angles[nav_angles > 0]: the positive elements, in order. */
  function Positives(s: seq<real>): (p: seq<real>)
    ensures AllAbove(p, 0.0)
    ensures |p| <= |s|
    ensures forall x :: x in p <==> x in s && x > 0.0
  {
    if |s| == 0 then []
    else if s[0] > 0.0 then [s[0]] + Positives(s[1..])
    else Positives(s[1..])
  }

  /** The filter keeps order: filtering a concatenation concatenates the
      filtered parts. */
  lemma {:induction false} PositivesOfConcat(a: seq<real>, b: seq<real>)
    ensures Positives(a + b) == Positives(a) + Positives(b)
    decreases |a|
  {
    if |a| > 0 {
      assert (a + b)[1..] == a[1..] + b;
      PositivesOfConcat(a[1..], b);
    } else {
      assert a + b == b;
    }
  }

  /** pts[dists < limit]: the points whose distance is under the limit, in
      order. */
  function Within(pts: seq<Point>, dists: seq<real>, limit: real): (kept: seq<Point>)
    requires |pts| == |dists|
    ensures |kept| <= |pts|
    ensures forall k :: 0 <= k < |pts| && dists[k] < limit ==> pts[k] in kept
    ensures forall q :: q in kept ==> exists k :: 0 <= k < |pts| && dists[k] < limit && pts[k] == q
  {
    if |pts| == 0 then []
    else
      var rest := Within(pts[1..], dists[1..], limit);
      assert forall k :: 1 <= k < |pts| ==> pts[k] == pts[1..][k - 1] && dists[k] == dists[1..][k - 1];
      (if dists[0] < limit then [pts[0]] else []) + rest
  }

  /** The cutoff keeps order and multiplicity: cutting a concatenation
      concatenates the cut parts. With the one-point case of the body, this
      makes Within exactly numpy's order-preserving boolean selection. */
  lemma {:induction false} WithinOfConcat(a: seq<Point>, da: seq<real>, b: seq<Point>, db: seq<real>, limit: real)
    requires |a| == |da| && |b| == |db|
    ensures Within(a + b, da + db, limit) == Within(a, da, limit) + Within(b, db, limit)
    decreases |a|
  {
    if |a| > 0 {
      assert (a + b)[1..] == a[1..] + b;
      assert (da + db)[1..] == da[1..] + db;
      WithinOfConcat(a[1..], da[1..], b, db, limit);
    } else {
      assert a + b == b && da + db == db;
    }
  }

  /** A single point is kept exactly when its distance is under the limit. */
  lemma WithinOne(p: Point, d: real, limit: real)
    ensures Within([p], [d], limit) == (if d < limit then [p] else [])
  {
    assert [p][1..] == [] && [d][1..] == [];
  }

  /** When no point is under the limit nothing survives the cutoff. */
  lemma {:induction false} NothingWithin(pts: seq<Point>, dists: seq<real>, limit: real)
    requires |pts| == |dists|
    requires forall k :: 0 <= k < |dists| ==> dists[k] >= limit
    ensures Within(pts, dists, limit) == []
    decreases |pts|
  {
    if |pts| > 0 {
      assert forall k :: 0 <= k < |dists[1..]| ==> dists[1..][k] == dists[k + 1];
      NothingWithin(pts[1..], dists[1..], limit);
    }
  }

  /** The three cutoffs of perception_step, in rover pixels. */
  const NAV_CUTOFF: real := 60.0
  const OBS_CUTOFF: real := 80.0
  const ROCK_CUTOFF: real := 70.0

  // ------------------------------------------------------------ the step

  /** to_polar_coords' distance and angle of a rover point. */
  datatype Polar = Polar(dist: Point -> real, angle: Point -> real)

  function Xs(pts: seq<Point>): (v: seq<real>)
    ensures |v| == |pts| && forall k :: 0 <= k < |pts| ==> v[k] == pts[k].x
  {
    seq(|pts|, k requires 0 <= k < |pts| => pts[k].x)
  }

  function Ys(pts: seq<Point>): (v: seq<real>)
    ensures |v| == |pts| && forall k :: 0 <= k < |pts| ==> v[k] == pts[k].y
  {
    seq(|pts|, k requires 0 <= k < |pts| => pts[k].y)
  }

  function Apply(f: Point -> real, pts: seq<Point>): (v: seq<real>)
    ensures |v| == |pts| && forall k :: 0 <= k < |pts| ==> v[k] == f(pts[k])
  {
    seq(|pts|, k requires 0 <= k < |pts| => f(pts[k]))
  }

  /** What perception_step stores in the record and the world cells it
      maps per channel. */
  datatype Vision = Vision(
    xNav: seq<real>, yNav: seq<real>,
    navDists: seq<real>, navAngles: seq<real>, navAnglesLeft: seq<real>,
    obsDists: seq<real>, obsAngles: seq<real>,
    rockDists: seq<real>, rockAngles: seq<real>,
    obsCells: seq<Cell>, rockCells: seq<Cell>, navCells: seq<Cell>)

  /** perception_step from the three masks on: rover coordinates, polar
      coordinates, the left filter, the cutoffs and the world cells. */
  function Perceive(nav: Grid<int>, obs: Grid<int>, rock: Grid<int>,
                    pos: Point, rot: Rotation, polar: Polar): Vision
  {
    var navPts, obsPts, rockPts := RoverCoords(nav), RoverCoords(obs), RoverCoords(rock);
    var navDists, navAngles := Apply(polar.dist, navPts), Apply(polar.angle, navPts);
    var obsDists := Apply(polar.dist, obsPts);
    var rockDists := Apply(polar.dist, rockPts);
    var navNear := Within(navPts, navDists, NAV_CUTOFF);
    var obsNear := Within(obsPts, obsDists, OBS_CUTOFF);
    var rockNear := Within(rockPts, rockDists, ROCK_CUTOFF);
    Vision(Xs(navPts), Ys(navPts), navDists, navAngles, Positives(navAngles),
           obsDists, Apply(polar.angle, obsPts), rockDists, Apply(polar.angle, rockNear),
           WorldCells(obsNear, pos, rot), WorldCells(rockNear, pos, rot), WorldCells(navNear, pos, rot))
  }

  /** perception_step on the warped image and its warp mask. */
  function See(im: Grid<Pixel>, mask: Grid<int>, pos: Point, rot: Rotation, polar: Polar): Vision
    requires |mask| == |im| && forall i :: 0 <= i < |im| ==> |mask[i]| == |im[i]|
  {
    var nav := Mask(im, NavigableBand);
    Perceive(nav, ObstacleMask(nav, mask), Mask(im, RockBand), pos, rot, polar)
  }

  /** The left angles of a vision are the positive navigable angles. */
  predicate Coherent(v: Vision)
  {
    v.navAnglesLeft == Positives(v.navAngles)
  }

  /** What perception_step promises the decisions: one distance and one
      angle per navigable pixel, the left angles are the positive ones, a rock angle only for a rock pixel within 70, and a mapped rock
      cell only for such a pixel. */
  lemma SeeMeaning(im: Grid<Pixel>, mask: Grid<int>, pos: Point, rot: Rotation, polar: Polar)
    requires |mask| == |im| && forall i :: 0 <= i < |im| ==> |mask[i]| == |im[i]|
    ensures var v := See(im, mask, pos, rot, polar);
      var rockPts := RoverCoords(Mask(im, RockBand));
      && |v.navDists| == |v.navAngles| == |v.xNav| == |v.yNav| == |Nonzero(Mask(im, NavigableBand))|
      && Coherent(v) && AllAbove(v.navAnglesLeft, 0.0)
      && (forall a :: a in v.navAnglesLeft <==> a in v.navAngles && a > 0.0)
      && |v.rockAngles| == |v.rockCells| <= |rockPts|
      && ((forall k :: 0 <= k < |v.rockDists| ==> v.rockDists[k] >= ROCK_CUTOFF) ==>
            v.rockCells == [] && v.rockAngles == [])
  {
    var v := See(im, mask, pos, rot, polar);
    var rockPts := RoverCoords(Mask(im, RockBand));
    if forall k :: 0 <= k < |v.rockDists| ==> v.rockDists[k] >= ROCK_CUTOFF {
      NothingWithin(rockPts, Apply(polar.dist, rockPts), ROCK_CUTOFF);
    }
  }

  /** The record after perception_step's navigable stores. */
  function StoredNav(r: RoverData, v: Vision): RoverData
  {
    r.(xNav := v.xNav, yNav := v.yNav, navDists := v.navDists, navAngles := Some(v.navAngles),
       navAnglesLeft := v.navAnglesLeft)
  }

  /** The record after all of perception_step's stores; the left angles
      are positive exactly when those of the vision are. */
  function Stored(r: RoverData, v: Vision): (d: RoverData)
    ensures d.navAngles == Some(v.navAngles)
    ensures LeftAnglesPositive(d) <==> AllAbove(v.navAnglesLeft, 0.0)
    ensures ControlsInRange(d) <==> ControlsInRange(r)
  {
    StoredNav(r, v).(obsDists := v.obsDists, obsAngles := v.obsAngles,
                     rockDists := v.rockDists, rockAngles := v.rockAngles)
  }

  /** The stability test: pitch and roll within a fraction of a degree of
      level, on the simulator's [0, 360) scale. */
  predicate IsStable(pitch: real, roll: real)
  {
    (pitch > 359.0 || pitch < 0.25) && (roll > 359.0 || roll < 0.37)
  }

  /** The channel indices of the world map. */
  const RED: nat := 0
  const GREEN: nat := 1
  const BLUE: nat := 2

  /** The cells mapped on one channel: obstacles red, rocks green,
      navigable terrain blue. */
  function ChannelCells(v: Vision, ch: int): seq<Cell>
  {
    if ch == RED then v.obsCells else if ch == GREEN then v.rockCells
    else if ch == BLUE then v.navCells else []
  }

  /** The world-map value at (row, col, ch) after perception_step, from the
      value before: 255 on a mapped cell of its channel when stable, the old
      value everywhere else. */
  function MapAfter(before: int, stable: bool, v: Vision, row: int, col: int, ch: int): int
  {
    if stable && Cell(col, row) in ChannelCells(v, ch) then 255 else before
  }

  /** An unstable cycle leaves the map alone; a stable one with no rock
      close enough leaves the green channel alone; a cell either keeps its
      value or becomes 255. */
  lemma MapAfterMeaning(before: int, stable: bool, v: Vision, row: int, col: int, ch: int)
    ensures !stable ==> MapAfter(before, stable, v, row, col, ch) == before
    ensures v.rockCells == [] && ch == GREEN ==> MapAfter(before, stable, v, row, col, ch) == before
    ensures ch != RED && ch != GREEN && ch != BLUE ==> MapAfter(before, stable, v, row, col, ch) == before
    ensures MapAfter(before, stable, v, row, col, ch) in {before, 255}
  {
  }

  /** worldmap[ys, xs, ch] = 255 for a run of cells. */
  method MarkCells(m: array3<int>, cells: seq<Cell>, ch: int)
    requires 0 <= ch < m.Length2
    requires forall k :: 0 <= k < |cells| ==> 0 <= cells[k].y < m.Length0 && 0 <= cells[k].x < m.Length1
    modifies m
    ensures forall i, j, c :: 0 <= i < m.Length0 && 0 <= j < m.Length1 && 0 <= c < m.Length2 ==>
      m[i, j, c] == (if c == ch && Cell(j, i) in cells then 255 else old(m[i, j, c]))
  {
    var k := 0;
    while k < |cells|
      invariant 0 <= k <= |cells|
      invariant forall i, j, c :: 0 <= i < m.Length0 && 0 <= j < m.Length1 && 0 <= c < m.Length2 ==>
        m[i, j, c] == (if c == ch && Cell(j, i) in cells[..k] then 255 else old(m[i, j, c]))
    {
      assert cells[..k + 1] == cells[..k] + [cells[k]];
      m[cells[k].y, cells[k].x, ch] := 255;
      k := k + 1;
    }
    assert cells[..k] == cells;
  }

  /** The navigable fields perception_step assigns. */
  method StoreNavigable(rover: Rover, v: Vision)
    modifies rover
    ensures rover.Data() == StoredNav(old(rover.Data()), v)
  {
    rover.xNav, rover.yNav := v.xNav, v.yNav;
    rover.navDists, rover.navAngles := v.navDists, Some(v.navAngles);
    rover.navAnglesLeft := v.navAnglesLeft;
  }

  /** All the record fields perception_step assigns. */
  method StoreVision(rover: Rover, v: Vision)
    modifies rover
    ensures rover.Data() == Stored(old(rover.Data()), v)
  {
    StoreNavigable(rover, v);
    rover.obsDists, rover.obsAngles := v.obsDists, v.obsAngles;
    rover.rockDists, rover.rockAngles := v.rockDists, v.rockAngles;
  }

  /** Every mapped cell of a vision lies on the world map. */
  predicate Mappable(v: Vision)
  {
    && (forall k :: 0 <= k < |v.obsCells| ==> 0 <= v.obsCells[k].x < WORLD_SIZE && 0 <= v.obsCells[k].y < WORLD_SIZE)
    && (forall k :: 0 <= k < |v.rockCells| ==> 0 <= v.rockCells[k].x < WORLD_SIZE && 0 <= v.rockCells[k].y < WORLD_SIZE)
    && (forall k :: 0 <= k < |v.navCells| ==> 0 <= v.navCells[k].x < WORLD_SIZE && 0 <= v.navCells[k].y < WORLD_SIZE)
  }

  /** The three channel writes, made only when the rover is stable. */
  method MarkWorld(m: array3<int>, v: Vision, stable: bool)
    requires m.Length0 == WORLD_SIZE && m.Length1 == WORLD_SIZE && m.Length2 == CHANNELS
    requires Mappable(v)
    modifies m
    ensures forall i, j, c :: 0 <= i < WORLD_SIZE && 0 <= j < WORLD_SIZE && 0 <= c < CHANNELS ==>
      m[i, j, c] == MapAfter(old(m[i, j, c]), stable, v, i, j, c)
  {
    if stable {
      MarkCells(m, v.obsCells, RED);
      MarkCells(m, v.rockCells, GREEN);
      MarkCells(m, v.navCells, BLUE);
    }
  }

  /** The thresholding and the coordinate work of perception_step, on the
      warped image, its warp mask and the rover's pose. */
  method Look(img: array2<Pixel>, mask: array2<int>, pos: Point, rot: Rotation, polar: Polar)
    returns (v: Vision)
    requires mask.Length0 == img.Length0 && mask.Length1 == img.Length1
    ensures v == See(Cells(img), Cells(mask), pos, rot, polar)
    ensures Mappable(v) && AllAbove(v.navAnglesLeft, 0.0)
  {
    var nav := ColorThresh(img);
    var rock := RockThresh(img);
    v := Perceive(Cells(nav), ObstacleMask(Cells(nav), Cells(mask)), Cells(rock), pos, rot, polar);
  }

  /** perception_step on the rover: looks, stores the polar outputs and,
      when the rover is stable, marks the mapped cells. The rover's pose is
      read from the record. */
  method PerceptionStep(rover: Rover, img: array2<Pixel>, mask: array2<int>, rot: Rotation, polar: Polar)
    requires rover.Valid()
    requires mask.Length0 == img.Length0 && mask.Length1 == img.Length1
    modifies rover, rover.worldmap
    ensures rover.Valid()
    ensures var v := See(Cells(img), Cells(mask), Point(old(rover.posX), old(rover.posY)), rot, polar);
      && rover.Data() == Stored(old(rover.Data()), v)
      && forall i, j, c :: 0 <= i < WORLD_SIZE && 0 <= j < WORLD_SIZE && 0 <= c < CHANNELS ==>
           rover.worldmap[i, j, c] ==
             MapAfter(old(rover.worldmap[i, j, c]), IsStable(old(rover.pitch), old(rover.roll)), v, i, j, c)
  {
    var v := Look(img, mask, Point(rover.posX, rover.posY), rot, polar);
    MarkWorld(rover.worldmap, v, IsStable(rover.pitch, rover.roll));
    StoreVision(rover, v);
  }
}
