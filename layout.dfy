/**
 * `calculateBirdPositions`: one position per bird of an environment,
 * computed from the environment's anchor position, its size and its
 * `birdPositions` layout pattern.
 *
 * `Math.cos`, `Math.sin` and `Math.random` are not computed here: the host
 * supplies them as a `MathLib`, and `Math.random()` is a stream of draws
 * indexed by how many calls came before.
 */
module Layout {
  import opened Basics
  import opened Environments

  /** `Math.cos`, `Math.sin`, and `random(k)`, the result of the `k`-th call
      of `Math.random()`. */
  datatype MathLib = MathLib(cos: real -> real, sin: real -> real, random: nat -> real)

  /** `Math.PI`. */
  const Pi: real := 3.141592653589793

  /** The cases of `switch (birdPositions)`; `Linear` is the `default`. */
  datatype Pattern = Circular | Scattered | Grid | Branches | Trunk | Flowers | Linear

  /** The names the switch recognises. */
  const PatternNames: set<string> := {"circular", "scattered", "grid", "branches", "trunk", "flowers"}

  function PatternOf(name: string): (p: Pattern)
    ensures p == Linear <==> name !in PatternNames
  {
    if name == "circular" then Circular
    else if name == "scattered" then Scattered
    else if name == "grid" then Grid
    else if name == "branches" then Branches
    else if name == "trunk" then Trunk
    else if name == "flowers" then Flowers
    else Linear
  }

  /** How many `Math.random()` calls one bird costs under pattern `p`:
      x, y and z for `scattered`, radius and height for `flowers`. */
  function DrawsPer(p: Pattern): nat
  {
    match p
    case Scattered => 3
    case Flowers => 2
    case _ => 0
  }

  /** `(index / birds.length) * Math.PI * 2`. */
  function Angle(i: nat, n: nat): real
    requires i < n
  {
    (i as real / n as real) * Pi * 2.0
  }

  /** `Math.ceil(Math.sqrt(n))`: the least `c` whose square reaches `n`. */
  function CeilSqrt(n: nat): (c: nat)
    ensures c * c >= n
    ensures c == 0 || (c - 1) * (c - 1) < n
  {
    CeilSqrtFrom(n, 0)
  }

  function CeilSqrtFrom(n: nat, c: nat): (r: nat)
    requires c == 0 || (c - 1) * (c - 1) < n
    ensures r * r >= n
    ensures r == 0 || (r - 1) * (r - 1) < n
    decreases n - c
  {
    if c * c >= n then c
    else
      assert c <= c * c;
      CeilSqrtFrom(n, c + 1)
  }

  /** The cell in column `col` and row `row` of a `grid` of `cols` columns. */
  function GridCell(anchor: Vec3, size: Size, cols: nat, col: nat, row: nat): Vec3
    requires cols > 0
  {
    Vec3(anchor.x + (col as real - cols as real / 2.0) * (size.width / cols as real),
         anchor.y + 0.5,
         anchor.z + (row as real - cols as real / 2.0) * (size.depth / cols as real))
  }

  /** The position of bird `i` of `n` under pattern `p`, around `anchor`
      within `size`; `d` is the first random draw the bird consumes. */
  function Place(m: MathLib, p: Pattern, anchor: Vec3, size: Size, n: nat, i: nat, d: nat): Vec3
    requires i < n
  {
    match p
    case Circular =>
      var radius := size.width / 3.0;
      Vec3(anchor.x + m.cos(Angle(i, n)) * radius, anchor.y + 0.5, anchor.z + m.sin(Angle(i, n)) * radius)
    case Scattered =>
      Vec3(anchor.x + (m.random(d) - 0.5) * size.width,
           anchor.y + m.random(d + 1) * size.height,
           anchor.z + (m.random(d + 2) - 0.5) * size.depth)
    case Grid =>
      var cols := CeilSqrt(n);
      GridCell(anchor, size, cols, i % cols, i / cols)
    case Branches =>
      var height := 2.0 + (i % 3) as real * 1.5;
      Vec3(anchor.x + m.cos(Angle(i, n)) * 2.5, anchor.y + height, anchor.z + m.sin(Angle(i, n)) * 2.5)
    case Trunk =>
      var height := 3.0 + i as real * 2.0;
      Vec3(anchor.x + m.cos(Angle(i, n)) * 1.2, anchor.y + height, anchor.z + m.sin(Angle(i, n)) * 1.2)
    case Flowers =>
      var radius := 1.5 + m.random(d) * 1.0;
      var height := 0.5 + m.random(d + 1) * 2.0;
      Vec3(anchor.x + m.cos(Angle(i, n)) * radius, anchor.y + height, anchor.z + m.sin(Angle(i, n)) * radius)
    case Linear =>
      Vec3(anchor.x + (i as real - n as real / 2.0) * 1.5, anchor.y + 1.0, anchor.z)
  }

  /** The positions of `n` birds under pattern `p`, in bird order, the
      random stream starting at draw `start`. */
  function Placed(m: MathLib, p: Pattern, anchor: Vec3, size: Size, n: nat, start: nat): seq<Vec3>
  {
    seq(n, i requires 0 <= i < n => Place(m, p, anchor, size, n, i, start + DrawsPer(p) * i))
  }

  /** The positions `calculateBirdPositions` gives `n` birds of `environment`. */
  function Positions(m: MathLib, environment: EnvConfig, n: nat, start: nat): seq<Vec3>
  {
    Placed(m, PatternOf(environment.birdPositions), environment.position, environment.size, n, start)
  }

  /** `calculateBirdPositions(environment, birds)`, reading the random
      stream from draw `start` on; `next` is the first draw left unread. */
  method CalculateBirdPositions<T>(m: MathLib, environment: EnvConfig, birds: seq<T>, start: nat)
    returns (positions: seq<Vec3>, next: nat)
    ensures |positions| == |birds|
    ensures positions == Positions(m, environment, |birds|, start)
    ensures next == start + DrawsPer(PatternOf(environment.birdPositions)) * |birds|
  {
    var position, size, birdPositions := environment.position, environment.size, environment.birdPositions;
    var n := |birds|;
    next := start;
    if birdPositions == "circular" {
      positions := CircularPositions(m, position, size, n);
    } else if birdPositions == "scattered" {
      positions, next := ScatteredPositions(m, position, size, n, start);
    } else if birdPositions == "grid" {
      positions := GridPositions(m, position, size, n);
    } else if birdPositions == "branches" {
      positions := BranchesPositions(m, position, size, n);
    } else if birdPositions == "trunk" {
      positions := TrunkPositions(m, position, size, n);
    } else if birdPositions == "flowers" {
      positions, next := FlowersPositions(m, position, size, n, start);
    } else {
      positions := LinearPositions(m, position, size, n);
    }
  }

  /** `case 'circular'`: evenly spaced on a circle a third of the width
      across, half a unit up. */
  method CircularPositions(m: MathLib, position: Vec3, size: Size, n: nat) returns (positions: seq<Vec3>)
    ensures positions == Placed(m, Circular, position, size, n, 0)
  {
    ghost var all := Placed(m, Circular, position, size, n, 0);
    positions := [];
    for index := 0 to n
      invariant positions == all[..index]
    {
      assert all[index] == Place(m, Circular, position, size, n, index, 0);
      var angle := (index as real / n as real) * Pi * 2.0;
      var radius := size.width / 3.0;
      var p := Vec3(position.x + m.cos(angle) * radius, position.y + 0.5,
                    position.z + m.sin(angle) * radius);
      assert p == all[index];
      positions := positions + [p];
    }
    assert all[..n] == all;
  }

  /** `case 'scattered'`: three draws per bird, for x, y and z in turn. */
  method ScatteredPositions(m: MathLib, position: Vec3, size: Size, n: nat, start: nat)
    returns (positions: seq<Vec3>, next: nat)
    ensures positions == Placed(m, Scattered, position, size, n, start)
    ensures next == start + 3 * n
  {
    ghost var all := Placed(m, Scattered, position, size, n, start);
    positions := [];
    next := start;
    for index := 0 to n
      invariant positions == all[..index]
      invariant next == start + 3 * index
    {
      assert all[index] == Place(m, Scattered, position, size, n, index, next);
      var x := position.x + (m.random(next) - 0.5) * size.width;
      var y := position.y + m.random(next + 1) * size.height;
      var z := position.z + (m.random(next + 2) - 0.5) * size.depth;
      next := next + 3;
      var p := Vec3(x, y, z);
      assert p == all[index];
      positions := positions + [p];
    }
    assert all[..n] == all;
  }

  /** `case 'grid'`: `Math.ceil(Math.sqrt(n))` columns, filled row by row. */
  method GridPositions(m: MathLib, position: Vec3, size: Size, n: nat) returns (positions: seq<Vec3>)
    ensures positions == Placed(m, Grid, position, size, n, 0)
  {
    ghost var all := Placed(m, Grid, position, size, n, 0);
    var cols := CeilSqrt(n);
    positions := [];
    for index := 0 to n
      invariant positions == all[..index]
    {
      assert all[index] == Place(m, Grid, position, size, n, index, 0);
      var col := index % cols;
      var row := index / cols;
      var p := Vec3(position.x + (col as real - cols as real / 2.0) * (size.width / cols as real),
                    position.y + 0.5,
                    position.z + (row as real - cols as real / 2.0) * (size.depth / cols as real));
      assert p == all[index];
      positions := positions + [p];
    }
    assert all[..n] == all;
  }

  /** `case 'branches'`: a circle of radius 2.5, at three heights in turn. */
  method BranchesPositions(m: MathLib, position: Vec3, size: Size, n: nat) returns (positions: seq<Vec3>)
    ensures positions == Placed(m, Branches, position, size, n, 0)
  {
    ghost var all := Placed(m, Branches, position, size, n, 0);
    positions := [];
    for index := 0 to n
      invariant positions == all[..index]
    {
      assert all[index] == Place(m, Branches, position, size, n, index, 0);
      var angle := (index as real / n as real) * Pi * 2.0;
      var height := 2.0 + (index % 3) as real * 1.5;
      var p := Vec3(position.x + m.cos(angle) * 2.5, position.y + height,
                    position.z + m.sin(angle) * 2.5);
      assert p == all[index];
      positions := positions + [p];
    }
    assert all[..n] == all;
  }

  /** `case 'trunk'`: a circle of radius 1.2 close round the trunk, climbing
      two units per bird. */
  method TrunkPositions(m: MathLib, position: Vec3, size: Size, n: nat) returns (positions: seq<Vec3>)
    ensures positions == Placed(m, Trunk, position, size, n, 0)
  {
    ghost var all := Placed(m, Trunk, position, size, n, 0);
    positions := [];
    for index := 0 to n
      invariant positions == all[..index]
    {
      assert all[index] == Place(m, Trunk, position, size, n, index, 0);
      var angle := (index as real / n as real) * Pi * 2.0;
      var height := 3.0 + index as real * 2.0;
      var p := Vec3(position.x + m.cos(angle) * 1.2, position.y + height,
                    position.z + m.sin(angle) * 1.2);
      assert p == all[index];
      positions := positions + [p];
    }
    assert all[..n] == all;
  }

  /** `case 'flowers'`: two draws per bird, for the radius and the height. */
  method FlowersPositions(m: MathLib, position: Vec3, size: Size, n: nat, start: nat)
    returns (positions: seq<Vec3>, next: nat)
    ensures positions == Placed(m, Flowers, position, size, n, start)
    ensures next == start + 2 * n
  {
    ghost var all := Placed(m, Flowers, position, size, n, start);
    positions := [];
    next := start;
    for index := 0 to n
      invariant positions == all[..index]
      invariant next == start + 2 * index
    {
      assert all[index] == Place(m, Flowers, position, size, n, index, next);
      var angle := (index as real / n as real) * Pi * 2.0;
      var radius := 1.5 + m.random(next) * 1.0;
      var height := 0.5 + m.random(next + 1) * 2.0;
      next := next + 2;
      var p := Vec3(position.x + m.cos(angle) * radius, position.y + height,
                    position.z + m.sin(angle) * radius);
      assert p == all[index];
      positions := positions + [p];
    }
    assert all[..n] == all;
  }

  /** `default`: a line along x, 1.5 apart and centred on the anchor, one
      unit up. */
  method LinearPositions(m: MathLib, position: Vec3, size: Size, n: nat) returns (positions: seq<Vec3>)
    ensures positions == Placed(m, Linear, position, size, n, 0)
  {
    ghost var all := Placed(m, Linear, position, size, n, 0);
    positions := [];
    for index := 0 to n
      invariant positions == all[..index]
    {
      assert all[index] == Place(m, Linear, position, size, n, index, 0);
      var p := Vec3(position.x + (index as real - n as real / 2.0) * 1.5, position.y + 1.0,
                    position.z);
      assert p == all[index];
      positions := positions + [p];
    }
    assert all[..n] == all;
  }

  /** `Math.cos` and `Math.sin` of one angle lie on the unit circle. */
  ghost predicate Pythagorean(m: MathLib)
  {
    forall a: real :: m.cos(a) * m.cos(a) + m.sin(a) * m.sin(a) == 1.0
  }

  /** Every `Math.random()` draw lies in [0, 1). */
  ghost predicate UnitDraws(m: MathLib)
  {
    forall k: nat :: 0.0 <= m.random(k) < 1.0
  }

  lemma Scaled(c: real, s: real, r: real)
    requires c * c + s * s == 1.0
    ensures (c * r) * (c * r) + (s * r) * (s * r) == r * r
  {
    calc {
      (c * r) * (c * r) + (s * r) * (s * r);
      (c * c + s * s) * (r * r);
      r * r;
    }
  }

  /** Any name the switch does not recognise lays the birds out in a line
      one unit above the anchor, level with it in z, 1.5 apart in x. */
  lemma DefaultIsLinear(m: MathLib, environment: EnvConfig, n: nat, start: nat, i: nat)
    requires environment.birdPositions !in PatternNames
    requires i < n
    ensures Positions(m, environment, n, start)[i].y == environment.position.y + 1.0
    ensures Positions(m, environment, n, start)[i].z == environment.position.z
    ensures i + 1 < n ==> Positions(m, environment, n, start)[i + 1].x - Positions(m, environment, n, start)[i].x == 1.5
  {
  }

  /** Birds on a trunk start three units up and climb two units each. */
  lemma TrunkClimbs(m: MathLib, environment: EnvConfig, n: nat, start: nat, i: nat)
    requires environment.birdPositions == "trunk"
    requires i + 1 < n
    ensures Positions(m, environment, n, start)[0].y == environment.position.y + 3.0
    ensures Positions(m, environment, n, start)[i + 1].y - Positions(m, environment, n, start)[i].y == 2.0
  {
  }

  /** Birds on branches sit at one of three heights, repeating every three
      birds. */
  lemma BranchHeights(m: MathLib, environment: EnvConfig, n: nat, start: nat, i: nat)
    requires environment.birdPositions == "branches"
    requires i < n
    ensures var dy := Positions(m, environment, n, start)[i].y - environment.position.y;
      dy == 2.0 || dy == 3.5 || dy == 5.0
    ensures i + 3 < n ==> Positions(m, environment, n, start)[i + 3].y == Positions(m, environment, n, start)[i].y
  {
    assert (i + 3) % 3 == i % 3;
  }

  /** On a circle pattern every bird is the pattern's radius away from the
      anchor in the horizontal plane: a third of the width for `circular`,
      2.5 for `branches`, 1.2 for `trunk`. */
  lemma OnCircle(m: MathLib, environment: EnvConfig, n: nat, start: nat, i: nat)
    requires Pythagorean(m)
    requires i < n
    ensures environment.birdPositions == "circular" ==>
      SquaredRadius(Positions(m, environment, n, start)[i], environment.position) ==
        (environment.size.width / 3.0) * (environment.size.width / 3.0)
    ensures environment.birdPositions == "branches" ==>
      SquaredRadius(Positions(m, environment, n, start)[i], environment.position) == 2.5 * 2.5
    ensures environment.birdPositions == "trunk" ==>
      SquaredRadius(Positions(m, environment, n, start)[i], environment.position) == 1.2 * 1.2
  {
    var q := Positions(m, environment, n, start)[i];
    var a := environment.position;
    var p := PatternOf(environment.birdPositions);
    if environment.birdPositions == "circular" {
      assert p == Circular;
      RingOf(m, q, a, Angle(i, n), environment.size.width / 3.0);
    } else if environment.birdPositions == "branches" {
      assert p == Branches;
      RingOf(m, q, a, Angle(i, n), 2.5);
    } else if environment.birdPositions == "trunk" {
      assert p == Trunk;
      RingOf(m, q, a, Angle(i, n), 1.2);
    }
  }

  /** The square of the horizontal distance from `a` to `q`. */
  function SquaredRadius(q: Vec3, a: Vec3): real
  {
    (q.x - a.x) * (q.x - a.x) + (q.z - a.z) * (q.z - a.z)
  }

  /** A point `radius` out from `a` in the direction `angle` lies on the
      circle of that radius round `a`. */
  lemma RingOf(m: MathLib, q: Vec3, a: Vec3, angle: real, radius: real)
    requires Pythagorean(m)
    requires q.x == a.x + m.cos(angle) * radius && q.z == a.z + m.sin(angle) * radius
    ensures SquaredRadius(q, a) == radius * radius
  {
    var c, s := m.cos(angle), m.sin(angle);
    assert c * c + s * s == 1.0;
    assert q.x - a.x == c * radius && q.z - a.z == s * radius;
    Scaled(c, s, radius);
  }

  /** Scattered birds stay inside the environment's box: within half the
      width and depth of the anchor, and between the anchor's height and
      the box's top. */
  lemma ScatteredInside(m: MathLib, environment: EnvConfig, n: nat, start: nat, i: nat)
    requires environment.birdPositions == "scattered"
    requires UnitDraws(m)
    requires environment.size.width >= 0.0 && environment.size.height >= 0.0 && environment.size.depth >= 0.0
    requires i < n
    ensures var q := Positions(m, environment, n, start)[i];
      var a, size := environment.position, environment.size;
      a.x - size.width / 2.0 <= q.x <= a.x + size.width / 2.0 &&
      a.y <= q.y <= a.y + size.height &&
      a.z - size.depth / 2.0 <= q.z <= a.z + size.depth / 2.0
  {
    var a, size := environment.position, environment.size;
    var d := start + 3 * i;
    ScatteredAt(m, environment, n, start, i);
    var q := Positions(m, environment, n, start)[i];
    assert 0.0 <= m.random(d) < 1.0 && 0.0 <= m.random(d + 1) < 1.0 && 0.0 <= m.random(d + 2) < 1.0;
    Within(q.x, m.random(d), size.width, a.x);
    Below(q.y, m.random(d + 1), size.height, a.y);
    Within(q.z, m.random(d + 2), size.depth, a.z);
  }

  /** Scattered bird `i` reads draws `3 i`, `3 i + 1` and `3 i + 2` past
      `start`, for x, y and z. */
  lemma ScatteredAt(m: MathLib, environment: EnvConfig, n: nat, start: nat, i: nat)
    requires environment.birdPositions == "scattered"
    requires i < n
    ensures var a, size, d := environment.position, environment.size, start + 3 * i;
      Positions(m, environment, n, start)[i] ==
        Vec3(a.x + (m.random(d) - 0.5) * size.width, a.y + m.random(d + 1) * size.height,
             a.z + (m.random(d + 2) - 0.5) * size.depth)
  {
  }

  /** `v == c + (r - 0.5) * w` for a draw `r` stays within half of `w`
      of `c`. */
  lemma Within(v: real, r: real, w: real, c: real)
    requires 0.0 <= r < 1.0 && w >= 0.0
    requires v == c + (r - 0.5) * w
    ensures c - w / 2.0 <= v <= c + w / 2.0
  {
    assert (r - 0.5) * w == r * w - w / 2.0;
    NonNegativeProduct(r, w);
    NonNegativeProduct(1.0 - r, w);
  }

  /** `v == c + r * h` for a draw `r` stays between `c` and `c + h`. */
  lemma Below(v: real, r: real, h: real, c: real)
    requires 0.0 <= r < 1.0 && h >= 0.0
    requires v == c + r * h
    ensures c <= v <= c + h
  {
    NonNegativeProduct(r, h);
    NonNegativeProduct(1.0 - r, h);
    assert (1.0 - r) * h == h - r * h;
  }

  lemma NonNegativeProduct(a: real, b: real)
    requires a >= 0.0 && b >= 0.0
    ensures a * b >= 0.0
  {
  }

  /** Birds round flowers hover between half a unit and two and a half
      units up, on a ring between 1.5 and 2.5 units out. */
  lemma FlowersRing(m: MathLib, environment: EnvConfig, n: nat, start: nat, i: nat)
    requires environment.birdPositions == "flowers"
    requires Pythagorean(m) && UnitDraws(m)
    requires i < n
    ensures var q := Positions(m, environment, n, start)[i];
      0.5 <= q.y - environment.position.y < 2.5 &&
      1.5 * 1.5 <= SquaredRadius(q, environment.position) < 2.5 * 2.5
  {
    var q := Positions(m, environment, n, start)[i];
    var a := environment.position;
    var d := start + 2 * i;
    var radius := 1.5 + m.random(d) * 1.0;
    assert q == Place(m, Flowers, a, environment.size, n, i, d);
    assert 0.0 <= m.random(d) < 1.0 && 0.0 <= m.random(d + 1) < 1.0;
    RingOf(m, q, a, Angle(i, n), radius);
    SquareBounds(radius, 1.5, 2.5);
  }

  /** Squaring keeps the order of non-negative bounds. */
  lemma SquareBounds(r: real, lo: real, hi: real)
    requires 0.0 <= lo <= r < hi
    ensures lo * lo <= r * r < hi * hi
  {
    assert r * r - lo * lo == (r - lo) * (r + lo);
    NonNegativeProduct(r - lo, r + lo);
    assert hi * hi - r * r == (hi - r) * (hi + r);
    PositiveProduct(hi - r, hi + r);
  }

  lemma PositiveProduct(a: real, b: real)
    requires a > 0.0 && b > 0.0
    ensures a * b > 0.0
  {
  }

  /** Grid bird `i` sits in column `i % cols` and row `i / cols`. */
  lemma GridAt(m: MathLib, environment: EnvConfig, n: nat, start: nat, i: nat)
    requires environment.birdPositions == "grid"
    requires i < n
    ensures var cols := CeilSqrt(n);
      cols > 0 &&
      Positions(m, environment, n, start)[i] == GridCell(environment.position, environment.size, cols, i % cols, i / cols)
  {
  }

  /** The grid has `Math.ceil(Math.sqrt(n))` columns, filled row by row:
      every bird sits inside the environment's footprint, half a unit up. */
  lemma GridInside(m: MathLib, environment: EnvConfig, n: nat, start: nat, i: nat)
    requires environment.birdPositions == "grid"
    requires environment.size.width > 0.0 && environment.size.depth > 0.0
    requires i < n
    ensures var q, a, size := Positions(m, environment, n, start)[i], environment.position, environment.size;
      q.y == a.y + 0.5 &&
      a.x - size.width / 2.0 <= q.x < a.x + size.width / 2.0 &&
      a.z - size.depth / 2.0 <= q.z < a.z + size.depth / 2.0
  {
    var cols := CeilSqrt(n);
    GridAt(m, environment, n, start, i);
    RowBound(i, n, cols);
    CellInsideBox(environment.position, environment.size, cols, i % cols, i / cols);
  }

  /** On a footprint of positive area no two birds of the grid share a
      cell. */
  lemma GridDistinct(m: MathLib, environment: EnvConfig, n: nat, start: nat, i: nat, j: nat)
    requires environment.birdPositions == "grid"
    requires environment.size.width > 0.0 && environment.size.depth > 0.0
    requires i < n && j < n && i != j
    ensures Positions(m, environment, n, start)[i] != Positions(m, environment, n, start)[j]
  {
    var cols := CeilSqrt(n);
    GridAt(m, environment, n, start, i);
    GridAt(m, environment, n, start, j);
    OtherCell(i, j, cols);
    CellsDiffer(environment.position, environment.size, cols, i % cols, i / cols, j % cols, j / cols);
  }

  /** A cell of the grid lies inside the footprint. */
  lemma CellInsideBox(anchor: Vec3, size: Size, cols: nat, col: nat, row: nat)
    requires size.width > 0.0 && size.depth > 0.0
    requires col < cols && row < cols
    ensures var q := GridCell(anchor, size, cols, col, row);
      q.y == anchor.y + 0.5 &&
      anchor.x - size.width / 2.0 <= q.x < anchor.x + size.width / 2.0 &&
      anchor.z - size.depth / 2.0 <= q.z < anchor.z + size.depth / 2.0
  {
    var q := GridCell(anchor, size, cols, col, row);
    CellInside(q.x, anchor.x, col, cols, size.width);
    CellInside(q.z, anchor.z, row, cols, size.depth);
  }

  /** Different cells of a grid of positive area are different positions. */
  lemma CellsDiffer(anchor: Vec3, size: Size, cols: nat, c1: nat, r1: nat, c2: nat, r2: nat)
    requires size.width > 0.0 && size.depth > 0.0 && cols > 0
    requires c1 != c2 || r1 != r2
    ensures GridCell(anchor, size, cols, c1, r1) != GridCell(anchor, size, cols, c2, r2)
  {
    var p, q := GridCell(anchor, size, cols, c1, r1), GridCell(anchor, size, cols, c2, r2);
    if c1 != c2 {
      CellsApart(p.x, q.x, anchor.x, c1, c2, cols, size.width);
    } else {
      CellsApart(p.z, q.z, anchor.z, r1, r2, cols, size.depth);
    }
  }

  /** Two different indices lie in different columns or different rows. */
  lemma OtherCell(i: nat, j: nat, cols: nat)
    requires cols > 0 && i != j
    ensures i / cols >= 0 && j / cols >= 0
    ensures i % cols != j % cols || i / cols != j / cols
  {
    assert i == (i / cols) * cols + i % cols && j == (j / cols) * cols + j % cols;
  }

  lemma RowBound(i: nat, n: nat, cols: nat)
    requires i < n && cols > 0 && cols * cols >= n
    ensures 0 <= i / cols < cols
  {
    var row := i / cols;
    assert row * cols <= i;
    MulMono(cols, row, cols);
  }

  lemma {:induction false} MulMono(a: nat, b: nat, c: nat)
    ensures a <= b ==> a * c <= b * c
  {
    if c > 0 {
      MulMono(a, b, c - 1);
      assert a * c == a * (c - 1) + a && b * c == b * (c - 1) + b;
    }
  }

  /** Coordinate `v` of cell `k` of `cols` across a span `w` centred on `a`
      lies in that half-open span. */
  lemma CellInside(v: real, a: real, k: nat, cols: nat, w: real)
    requires k < cols && w > 0.0
    requires v == a + (k as real - cols as real / 2.0) * (w / cols as real)
    ensures a - w / 2.0 <= v < a + w / 2.0
  {
    var c, t := cols as real, w / cols as real;
    assert t * c == w;
    assert v - a == k as real * t - w / 2.0;
    MulLess(k as real, c, t);
  }

  lemma MulLess(x: real, y: real, t: real)
    requires 0.0 <= x < y && t > 0.0
    ensures 0.0 <= x * t < y * t
  {
  }

  /** The coordinates `u` and `v` of two different cells of `cols` across a
      span of positive width centred on `a` differ. */
  lemma CellsApart(u: real, v: real, a: real, k: nat, l: nat, cols: nat, w: real)
    requires k != l && cols > 0 && w > 0.0
    requires u == a + (k as real - cols as real / 2.0) * (w / cols as real)
    requires v == a + (l as real - cols as real / 2.0) * (w / cols as real)
    ensures u != v
  {
    var c, t := cols as real, w / cols as real;
    assert u - v == (k as real - l as real) * t;
    if k < l {
      MulLess(k as real, l as real, t);
    } else {
      MulLess(l as real, k as real, t);
    }
  }
}
