/** The older grid-maze collector: a maze of 20 px cells built from the
    canvas size with walls all round the border, dots at the centres of open
    cells, four power pellets near the corners, up to three ghosts, and the
    canMoveTo rule that every step of the player and of the ghosts obeys. */
module PacMan {
  import opened Common
  import opened GameEngine

  const CellSize: real := 20.0

  /** The four movement directions, in the order the ghost logic lists them. */
  const Directions: seq<string> := ["up", "down", "left", "right"]

  /** Where the player starts the game, every new life and every level. */
  const Start: Pos := Pos(400.0, 300.0)

  const StartLives: int := 5

  /** A ghost; its colour only matters to rendering and is left out. */
  datatype Ghost = Ghost(x: real, y: real, direction: string, vulnerable: bool)

  /** The maze: rows of cells, 1 for a wall and 0 for open floor. */
  type Maze = seq<seq<int>>

  // ---------------------------------------------------------------------
  // Grid geometry

  /** The cell index of a pixel coordinate, Math.floor(v / cellSize). */
  function CellOf(v: real): int { Floor(v / CellSize) }

  /** The pixel coordinate of the centre of cell index k. */
  function CentreOf(k: int): real { k as real * CellSize + CellSize / 2.0 }

  function Centre(gx: int, gy: int): Pos { Pos(CentreOf(gx), CentreOf(gy)) }

  /** The centre of a cell lies in that cell. */
  lemma CentreCell(k: int)
    ensures CellOf(CentreOf(k)) == k
  {
    assert CentreOf(k) / CellSize == k as real + 0.5;
  }

  /** How many whole cells fit along a canvas extent: the row or column
      count of generateMaze; a negative count makes its loop run no time. */
  function GridCount(extent: real): (n: nat)
    ensures extent >= 0.0 ==> n as real * CellSize <= extent < (n + 1) as real * CellSize
    ensures extent < 0.0 ==> n == 0
  {
    if Floor(extent / CellSize) < 0 then 0 else Floor(extent / CellSize)
  }

  /** Every row has exactly `cols` cells. */
  predicate Rectangular(m: Maze, rows: nat, cols: nat)
  {
    |m| == rows && forall y :: 0 <= y < rows ==> |m[y]| == cols
  }

  // ---------------------------------------------------------------------
  // generateMaze

  /** The draw of cell (y, x) from a grid of Math.random() results; missing
      draws read as 0. */
  function CellDraw(ds: seq<seq<Unit>>, y: int, x: int): Unit
  {
    if 0 <= y < |ds| then Pick(ds[y], x) else 0.0
  }

  predicate OnBorder(y: int, x: int, rows: int, cols: int)
  {
    y == 0 || y == rows - 1 || x == 0 || x == cols - 1
  }

  /** A cell as the nested loop first writes it: a wall on the border, a
      wall when the cell's draw is below 0.02, open floor otherwise. */
  function RawCell(y: int, x: int, rows: int, cols: int, u: Unit): int
  {
    if OnBorder(y, x, rows, cols) then 1
    else if u < 0.02 then 1
    else 0
  }

  function RawRow(y: int, rows: int, cols: nat, ds: seq<seq<Unit>>): (r: seq<int>)
    ensures |r| == cols
  {
    seq(cols, x requires 0 <= x < cols => RawCell(y, x, rows, cols, CellDraw(ds, y, x)))
  }

  function RawMaze(rows: nat, cols: nat, ds: seq<seq<Unit>>): (m: Maze)
    ensures |m| == rows
  {
    seq(rows, y requires 0 <= y < rows => RawRow(y, rows, cols, ds))
  }

  /** The maze with cell (gy, gx) opened, when that cell exists. */
  function Cleared(m: Maze, gy: int, gx: int, cols: int): Maze
  {
    if 0 <= gy < |m| && 0 <= gx < cols && gx < |m[gy]| then m[gy := m[gy][gx := 0]] else m
  }

  /** generateMaze for a canvas of the given size, with the player at
      `player` and the wall draws `ds`. */
  function Generated(width: real, height: real, player: Pos, ds: seq<seq<Unit>>): Maze
  {
    var rows, cols := GridCount(height), GridCount(width);
    Cleared(RawMaze(rows, cols, ds), CellOf(player.y), CellOf(player.x), cols)
  }

  /** The generated maze has one row per whole cell of height and one
      column per whole cell of width, and holds only walls and floor. */
  lemma {:induction false} MazeShape(width: real, height: real, player: Pos, ds: seq<seq<Unit>>)
    ensures Rectangular(Generated(width, height, player, ds), GridCount(height), GridCount(width))
    ensures var m := Generated(width, height, player, ds);
      forall y, x :: 0 <= y < |m| && 0 <= x < |m[y]| ==> m[y][x] == 0 || m[y][x] == 1
  {
    var rows, cols := GridCount(height), GridCount(width);
    var raw := RawMaze(rows, cols, ds);
    assert Rectangular(raw, rows, cols) by {
      forall y | 0 <= y < rows
        ensures |raw[y]| == cols
      {
        assert raw[y] == RawRow(y, rows, cols, ds);
      }
    }
  }

  /** Every border cell is a wall, except the player's own cell, which is
      always open when it lies in the grid; an inner cell other than the
      player's is a wall exactly when its draw is below 0.02. */
  lemma {:induction false} MazeWalls(width: real, height: real, player: Pos, ds: seq<seq<Unit>>)
    ensures var m, rows, cols := Generated(width, height, player, ds), GridCount(height), GridCount(width);
      var gy, gx := CellOf(player.y), CellOf(player.x);
      && (forall y, x :: 0 <= y < rows && 0 <= x < cols && (y, x) != (gy, gx) ==>
            m[y][x] == RawCell(y, x, rows, cols, CellDraw(ds, y, x)))
      && (forall y, x :: 0 <= y < rows && 0 <= x < cols && (y, x) != (gy, gx) && OnBorder(y, x, rows, cols) ==>
            m[y][x] == 1)
      && (0 <= gy < rows && 0 <= gx < cols ==> m[gy][gx] == 0)
  {
    var rows, cols := GridCount(height), GridCount(width);
    var raw := RawMaze(rows, cols, ds);
    var gy, gx := CellOf(player.y), CellOf(player.x);
    forall y, x | 0 <= y < rows && 0 <= x < cols
      ensures raw[y][x] == RawCell(y, x, rows, cols, CellDraw(ds, y, x))
    {
      assert raw[y] == RawRow(y, rows, cols, ds);
    }
    if 0 <= gy < rows && 0 <= gx < cols {
      assert |raw[gy]| == cols by { assert raw[gy] == RawRow(gy, rows, cols, ds); }
    }
  }

  // ---------------------------------------------------------------------
  // canMoveTo

  /** canMoveTo: a point may be entered iff its cell lies in the grid and is
      open. A row shorter than the first reads past its end as no cell at
      all, which is not open. */
  function CanMoveTo(m: Maze, x: real, y: real): bool
  {
    var gx, gy := CellOf(x), CellOf(y);
    if gy < 0 || gy >= |m| || gx < 0 || gx >= |m[0]| then false
    else gx < |m[gy]| && m[gy][gx] == 0
  }

  /** A point that may be entered lies inside the pixel box of the grid, and
      its cell is open. */
  lemma CanMoveInside(m: Maze, x: real, y: real)
    requires CanMoveTo(m, x, y)
    ensures 0.0 <= x < |m[0]| as real * CellSize && 0.0 <= y < |m| as real * CellSize
    ensures m[CellOf(y)][CellOf(x)] == 0
  {
    var gx, gy := CellOf(x), CellOf(y);
    assert gx as real <= x / CellSize < (gx + 1) as real;
    assert gy as real <= y / CellSize < (gy + 1) as real;
  }

  /** On a generated maze the player's start point may be entered exactly
      when it lies inside the grid. */
  lemma {:induction false} StartOpen(width: real, height: real, ds: seq<seq<Unit>>)
    ensures var m := Generated(width, height, Start, ds);
      CanMoveTo(m, Start.x, Start.y) <==>
        (CellOf(Start.y) < GridCount(height) && CellOf(Start.x) < GridCount(width))
  {
    var rows, cols := GridCount(height), GridCount(width);
    var m := Generated(width, height, Start, ds);
    MazeShape(width, height, Start, ds);
    MazeWalls(width, height, Start, ds);
    assert CellOf(Start.y) == 15 && CellOf(Start.x) == 20;
    if 15 < rows && 20 < cols {
      assert |m[0]| == cols;
      assert m[15][20] == 0;
    }
  }

  // ---------------------------------------------------------------------
  // spawnDots

  /** A point sits exactly on the centre of an open cell. */
  predicate OnOpenCentre(m: Maze, p: Pos)
  {
    var gx, gy := CellOf(p.x), CellOf(p.y);
    0 <= gy < |m| && 0 <= gx < |m[gy]| && m[gy][gx] == 0 && p == Centre(gx, gy)
  }

  /** The dots the inner loop lays in the first `x` cells of row `y`: the
      centre of every open cell whose draw is below 0.8. */
  function RowDots(row: seq<int>, y: int, x: nat, ds: seq<seq<Unit>>): (r: seq<Pos>)
    requires x <= |row|
    ensures |r| <= x
  {
    if x == 0 then []
    else RowDots(row, y, x - 1, ds) + (if row[x - 1] == 0 && CellDraw(ds, y, x - 1) < 0.8 then [Centre(x - 1, y)] else [])
  }

  /** The dots the nested loops lay in the first `y` rows. */
  function GridDots(m: Maze, y: nat, ds: seq<seq<Unit>>): seq<Pos>
    requires y <= |m|
  {
    if y == 0 then [] else GridDots(m, y - 1, ds) + RowDots(m[y - 1], y - 1, |m[y - 1]|, ds)
  }

  /** The two Math.random() values of one top-up attempt. */
  datatype TopUpDraw = TopUpDraw(col: Unit, row: Unit)

  function TopUpDrawAt(ts: seq<TopUpDraw>, i: int): TopUpDraw
  {
    if 0 <= i < |ts| then ts[i] else TopUpDraw(0.0, 0.0)
  }

  /** Math.floor(u * (n - 2)) + 1: a random index away from the border. */
  function InnerIndex(u: Unit, n: int): int
  {
    Floor(u * (n - 2) as real) + 1
  }

  /** The dot one top-up attempt adds: the centre of the chosen cell when
      that cell exists and is open. */
  function TopUpDot(m: Maze, rows: int, cols: int, t: TopUpDraw): seq<Pos>
  {
    var x, y := InnerIndex(t.col, cols), InnerIndex(t.row, rows);
    if 0 <= y < |m| && 0 <= x < |m[y]| && m[y][x] == 0 then [Centre(x, y)] else []
  }

  /** The dots of the first k top-up attempts. */
  function TopUpRun(m: Maze, rows: int, cols: int, ts: seq<TopUpDraw>, k: nat): (r: seq<Pos>)
    ensures |r| <= k
  {
    if k == 0 then [] else TopUpRun(m, rows, cols, ts, k - 1) + TopUpDot(m, rows, cols, TopUpDrawAt(ts, k - 1))
  }

  /** spawnDots: the grid dots, and when there are fewer than 20 of them,
      one top-up attempt for every count from theirs up to 30. */
  function SpawnedDots(m: Maze, width: real, height: real, ds: seq<seq<Unit>>, ts: seq<TopUpDraw>): seq<Pos>
  {
    ToppedUp(m, width, height, GridDots(m, |m|, ds), ts)
  }

  /** The top-up rule on its own: below 20 dots, the attempts for every
      count from theirs up to 30 are appended. */
  function ToppedUp(m: Maze, width: real, height: real, base: seq<Pos>, ts: seq<TopUpDraw>): seq<Pos>
  {
    if |base| < 20 then base + TopUpRun(m, GridCount(height), GridCount(width), ts, 30 - |base|) else base
  }

  lemma {:induction false} RowDotsOpen(m: Maze, y: nat, x: nat, ds: seq<seq<Unit>>)
    requires y < |m| && x <= |m[y]|
    ensures forall d :: d in RowDots(m[y], y, x, ds) ==> OnOpenCentre(m, d)
  {
    if x > 0 {
      RowDotsOpen(m, y, x - 1, ds);
      CentreCell(x - 1);
      CentreCell(y);
    }
  }

  lemma {:induction false} GridDotsOpen(m: Maze, y: nat, ds: seq<seq<Unit>>)
    requires y <= |m|
    ensures forall d :: d in GridDots(m, y, ds) ==> OnOpenCentre(m, d)
  {
    if y > 0 {
      GridDotsOpen(m, y - 1, ds);
      RowDotsOpen(m, y - 1, |m[y - 1]|, ds);
    }
  }

  lemma {:induction false} TopUpOpen(m: Maze, rows: int, cols: int, ts: seq<TopUpDraw>, k: nat)
    ensures forall d :: d in TopUpRun(m, rows, cols, ts, k) ==> OnOpenCentre(m, d)
  {
    if k > 0 {
      TopUpOpen(m, rows, cols, ts, k - 1);
      var t := TopUpDrawAt(ts, k - 1);
      CentreCell(InnerIndex(t.col, cols));
      CentreCell(InnerIndex(t.row, rows));
    }
  }

  /** Every dot spawnDots lays, in the grid pass and in the top-up, sits on
      the centre of an open cell; the top-up runs only below 20 dots and
      never takes the count past 30. */
  lemma SpawnedDotsOpen(m: Maze, width: real, height: real, ds: seq<seq<Unit>>, ts: seq<TopUpDraw>)
    ensures forall d :: d in SpawnedDots(m, width, height, ds, ts) ==> OnOpenCentre(m, d)
    ensures var base := GridDots(m, |m|, ds); var r := SpawnedDots(m, width, height, ds, ts);
      && (|base| >= 20 ==> r == base)
      && (|base| < 20 ==> r[..|base|] == base && |r| <= 30)
  {
    var base := GridDots(m, |m|, ds);
    GridDotsOpen(m, |m|, ds);
    if |base| < 20 {
      TopUpOpen(m, GridCount(height), GridCount(width), ts, 30 - |base|);
    }
  }

  /** On a rectangular maze every dot is a point the player may enter. */
  lemma DotReachable(m: Maze, rows: nat, cols: nat, d: Pos)
    requires Rectangular(m, rows, cols) && OnOpenCentre(m, d)
    ensures CanMoveTo(m, d.x, d.y)
  {
    assert |m[0]| == cols && |m[CellOf(d.y)]| == cols;
  }

  // ---------------------------------------------------------------------
  // spawnPowerPellets and spawnGhosts

  /** The four power pellets, two cells in from the left and top edges and
      three from the right and bottom ones. */
  function Corners(width: real, height: real): (r: seq<Pos>)
    ensures |r| == 4
    ensures width >= 5.0 * CellSize && height >= 5.0 * CellSize ==>
      forall p :: p in r ==> 2.0 * CellSize <= p.x <= width - 3.0 * CellSize && 2.0 * CellSize <= p.y <= height - 3.0 * CellSize
  {
    var near, right, bottom := 2.0 * CellSize, width - 3.0 * CellSize, height - 3.0 * CellSize;
    [Pos(near, near), Pos(right, near), Pos(near, bottom), Pos(right, bottom)]
  }

  /** spawnGhosts' count, min(1 + floor(level / 2), 3); a count below one
      makes its loop run no time. */
  function GhostCount(level: int): (n: nat)
    ensures n <= 3
    ensures (level == 0 || level == 1) ==> n == 1
    ensures (level == 2 || level == 3) ==> n == 2
    ensures level >= 4 ==> n == 3
    ensures level <= -1 ==> n == 0
  {
    if MinInt(1 + level / 2, 3) <= 0 then 0 else MinInt(1 + level / 2, 3)
  }

  /** A later level never has fewer ghosts. */
  lemma GhostCountGrows(a: int, b: int)
    requires a <= b
    ensures GhostCount(a) <= GhostCount(b)
  {
    assert a / 2 <= b / 2;
  }

  /** Ghost i of spawnGhosts: 80 px apart around the centre, facing its
      random direction, not vulnerable. */
  function NewGhost(i: nat, width: real, height: real, u: Unit): Ghost
  {
    Ghost(width / 2.0 + (i as real - 0.5) * 80.0, height / 2.0, Directions[IndexOf(u, 4)], false)
  }

  function NewGhosts(level: int, width: real, height: real, ds: seq<Unit>): (gs: seq<Ghost>)
    ensures |gs| == GhostCount(level)
    ensures forall i :: 0 <= i < |gs| ==>
      && !gs[i].vulnerable && gs[i].direction in Directions
      && gs[i].y == height / 2.0 && gs[i].x == width / 2.0 + (i as real - 0.5) * 80.0
  {
    seq(GhostCount(level), i requires 0 <= i => NewGhost(i, width, height, Pick(ds, i)))
  }

  // ---------------------------------------------------------------------
  // updatePlayer

  function Held(keys: set<string>, arrow: string, letter: string): bool
  {
    arrow in keys || letter in keys
  }

  /** Where updatePlayer aims before walls are consulted: every held
      direction adds its 2 px, so opposite keys cancel. */
  function Target(p: Pos, keys: set<string>): Pos
  {
    var dy := (if Held(keys, "arrowup", "w") then -2.0 else 0.0) + (if Held(keys, "arrowdown", "s") then 2.0 else 0.0);
    var dx := (if Held(keys, "arrowleft", "a") then -2.0 else 0.0) + (if Held(keys, "arrowright", "d") then 2.0 else 0.0);
    Pos(p.x + dx, p.y + dy)
  }

  /** The facing updatePlayer records: the last of up, down, left, right
      that is held, or the old one when none is. */
  function Facing(keys: set<string>, dir: string): (r: string)
    ensures r in Directions || r == dir
  {
    if Held(keys, "arrowright", "d") then "right"
    else if Held(keys, "arrowleft", "a") then "left"
    else if Held(keys, "arrowdown", "s") then "down"
    else if Held(keys, "arrowup", "w") then "up"
    else dir
  }

  /** The screen wrap: past the left edge to the right edge, past the right
      edge to the left one. */
  function WrapX(x: real, width: real): real
  {
    if x < 0.0 then width else if x > width then 0.0 else x
  }

  /** updatePlayer's position: the x move first, kept only if its cell is
      open; then the y move from the new x, kept only if its cell is open;
      then the wrap. */
  function Stepped(m: Maze, p: Pos, keys: set<string>, width: real): Pos
  {
    var t := Target(p, keys);
    var x := if CanMoveTo(m, t.x, p.y) then t.x else p.x;
    var y := if CanMoveTo(m, x, t.y) then t.y else p.y;
    Pos(WrapX(x, width), y)
  }

  /** Each axis moves by its net key offset exactly when its target cell is
      open, the x move before the y move. */
  lemma PlayerMoveRule(m: Maze, p: Pos, keys: set<string>, width: real)
    ensures var t, x := Target(p, keys), if CanMoveTo(m, Target(p, keys).x, p.y) then Target(p, keys).x else p.x;
      var r := Stepped(m, p, keys, width);
      && (x == t.x <==> CanMoveTo(m, t.x, p.y) || t.x == p.x)
      && (r.y == t.y <==> CanMoveTo(m, x, t.y) || t.y == p.y)
      && (r.y == t.y || r.y == p.y)
      && r.x == WrapX(x, width)
      && (Abs(t.x - p.x) == 0.0 || Abs(t.x - p.x) == 2.0) && (Abs(t.y - p.y) == 0.0 || Abs(t.y - p.y) == 2.0)
  {
  }

  /** A player on an open cell of a maze no wider than the canvas stays on
      an open cell, and the wrap never fires. */
  lemma PlayerStaysOpen(m: Maze, p: Pos, keys: set<string>, width: real)
    requires CanMoveTo(m, p.x, p.y)
    requires |m[0]| as real * CellSize <= width
    ensures var r := Stepped(m, p, keys, width);
      CanMoveTo(m, r.x, r.y) && r.x == (if CanMoveTo(m, Target(p, keys).x, p.y) then Target(p, keys).x else p.x)
  {
    var t := Target(p, keys);
    var x := if CanMoveTo(m, t.x, p.y) then t.x else p.x;
    CanMoveInside(m, x, p.y);
    var y := if CanMoveTo(m, x, t.y) then t.y else p.y;
    assert CanMoveTo(m, x, y);
    assert WrapX(x, width) == x;
  }

  // ---------------------------------------------------------------------
  // updateGhosts

  /** The Math.random() values one ghost may draw in one frame: the
      random-turn flip and its direction, the chase flip, and the new
      direction once it is blocked. */
  datatype GhostDraw = GhostDraw(turn: Unit, pick: Unit, chase: Unit, escape: Unit)

  function GhostDrawAt(ds: seq<GhostDraw>, i: int): GhostDraw
  {
    if 0 <= i < |ds| then ds[i] else GhostDraw(0.0, 0.0, 0.0, 0.0)
  }

  /** The direction a ghost takes: random one time in ten, otherwise
      towards the player (horizontal first) three times in ten, otherwise
      the one it had. */
  function Steer(g: Ghost, player: Pos, d: GhostDraw): string
  {
    if d.turn < 0.1 then Directions[IndexOf(d.pick, 4)]
    else if d.chase < 0.3 then
      if player.x > g.x then "right"
      else if player.x < g.x then "left"
      else if player.y > g.y then "down"
      else if player.y < g.y then "up"
      else g.direction
    else g.direction
  }

  /** One step of `speed` px in a direction; any other string is no step. */
  function Offset(x: real, y: real, dir: string, speed: real): Pos
  {
    if dir == "up" then Pos(x, y - speed)
    else if dir == "down" then Pos(x, y + speed)
    else if dir == "left" then Pos(x - speed, y)
    else if dir == "right" then Pos(x + speed, y)
    else Pos(x, y)
  }

  function GhostSpeed(g: Ghost): real { if g.vulnerable then 0.5 else 1.2 }

  /** One ghost of updateGhosts: steer, step if the target cell is open or
      else turn to a random direction, then wrap. */
  function MoveGhost(m: Maze, g: Ghost, player: Pos, width: real, d: GhostDraw): Ghost
  {
    var dir := Steer(g, player, d);
    var n := Offset(g.x, g.y, dir, GhostSpeed(g));
    var h := if CanMoveTo(m, n.x, n.y) then g.(x := n.x, y := n.y, direction := dir)
             else g.(direction := Directions[IndexOf(d.escape, 4)]);
    h.(x := WrapX(h.x, width))
  }

  function MovedGhosts(gs: seq<Ghost>, m: Maze, player: Pos, width: real, ds: seq<GhostDraw>): (r: seq<Ghost>)
    ensures |r| == |gs|
    ensures forall i :: 0 <= i < |gs| ==> r[i] == MoveGhost(m, gs[i], player, width, GhostDrawAt(ds, i))
  {
    seq(|gs|, i requires 0 <= i < |gs| => MoveGhost(m, gs[i], player, width, GhostDrawAt(ds, i)))
  }

  /** A ghost keeps its vulnerability and ends facing one of the four
      directions if it started so; it either stays (up to the wrap) or takes
      one step of its speed into a cell that may be entered, and on a maze
      no wider than the canvas such a step never wraps. */
  lemma GhostMoveRule(m: Maze, g: Ghost, player: Pos, width: real, d: GhostDraw)
    requires |m| == 0 || |m[0]| as real * CellSize <= width
    ensures var r := MoveGhost(m, g, player, width, d);
      && r.vulnerable == g.vulnerable
      && (g.direction in Directions ==> r.direction in Directions)
      && ((r.x == WrapX(g.x, width) && r.y == g.y) ||
          (CanMoveTo(m, r.x, r.y) && Abs(r.x - g.x) + Abs(r.y - g.y) == GhostSpeed(g)))
  {
    var r := MoveGhost(m, g, player, width, d);
    var dir := Steer(g, player, d);
    var n := Offset(g.x, g.y, dir, GhostSpeed(g));
    if CanMoveTo(m, n.x, n.y) {
      CanMoveInside(m, n.x, n.y);
      if dir !in Directions {
        assert n == Pos(g.x, g.y);
      }
    }
  }

  lemma MovedKeepsVulnerable(gs: seq<Ghost>, m: Maze, player: Pos, width: real, ds: seq<GhostDraw>)
    ensures forall i :: 0 <= i < |gs| ==> MovedGhosts(gs, m, player, width, ds)[i].vulnerable == gs[i].vulnerable
  {
  }

  /** The ghosts with every vulnerable flag set to b. */
  function WithVulnerable(gs: seq<Ghost>, b: bool): (r: seq<Ghost>)
    ensures |r| == |gs|
    ensures forall i :: 0 <= i < |gs| ==> r[i] == gs[i].(vulnerable := b)
  {
    seq(|gs|, i requires 0 <= i < |gs| => gs[i].(vulnerable := b))
  }

  /** Setting the flag a second time changes nothing. */
  lemma WithVulnerableTwice(gs: seq<Ghost>, b: bool)
    ensures WithVulnerable(WithVulnerable(gs, b), b) == WithVulnerable(gs, b)
  {
  }

  /** The ghosts after `k` eaten power pellets: all vulnerable once at
      least one was eaten. */
  function FlaggedIf(gs: seq<Ghost>, k: nat): (r: seq<Ghost>)
    ensures |r| == |gs|
  {
    if k > 0 then WithVulnerable(gs, true) else gs
  }

  // ---------------------------------------------------------------------
  // Ghost contact

  /** The part of the game state the ghost-contact loop reads and writes. */
  datatype Contact = Contact(player: Pos, playerDirection: string, lives: int, score: real, running: bool, events: seq<Event>)

  /** The contact state after the two pickup filters of checkCollisions
      around `c.player`: every dot within 15 px adds 10 points, then every
      power pellet within 20 px adds 50, each addition reported to the
      score handler. */
  function Pickup(c: Contact, dots: seq<Pos>, pellets: seq<Pos>, onScore: bool): (r: Contact)
    ensures r.score >= c.score && |r.events| >= |c.events|
    ensures r.(score := c.score, events := c.events) == c
  {
    var k1 := NearCount(dots, c.player, 225.0);
    var k2 := NearCount(pellets, c.player, 400.0);
    var s1 := c.score + 10.0 * k1 as real;
    c.(score := s1 + 50.0 * k2 as real,
       events := c.events + ScoreRun(onScore, c.score, 10.0, k1) + ScoreRun(onScore, s1, 50.0, k2))
  }

  /** A contact state that matches `c0` but for the score and the event log,
      which the two pickup filters set, is `Pickup`'s. */
  lemma PickupFields(c0: Contact, c: Contact, s1: real, e1: seq<Event>, dots: seq<Pos>, pellets: seq<Pos>, onScore: bool)
    requires c.player == c0.player && c.playerDirection == c0.playerDirection
    requires c.lives == c0.lives && c.running == c0.running
    requires var k1 := NearCount(dots, c0.player, 225.0);
      s1 == c0.score + 10.0 * k1 as real && e1 == c0.events + ScoreRun(onScore, c0.score, 10.0, k1)
    requires var k2 := NearCount(pellets, c0.player, 400.0);
      c.score == s1 + 50.0 * k2 as real && c.events == e1 + ScoreRun(onScore, s1, 50.0, k2)
    ensures c == Pickup(c0, dots, pellets, onScore)
  {
  }

  /** One ghost of the contact forEach: within 25 px a vulnerable ghost is
      eaten (+200, back to the centre, no longer vulnerable); any other one
      costs a life, but only once something has been scored, and then
      either ends the game or sends the player back to the start. */
  function TouchGhost(c: Contact, g: Ghost, home: Pos, level: int, onScore: bool, onEnd: bool): (Contact, Ghost)
  {
    if DistSq(c.player, Pos(g.x, g.y)) < 625.0 then
      if g.vulnerable then
        (c.(score := c.score + 200.0, events := c.events + ScoreEvent(onScore, c.score + 200.0)),
         g.(x := home.x, y := home.y, vulnerable := false))
      else if c.score > 0.0 then
        if c.lives - 1 <= 0 then
          (c.(lives := c.lives - 1, running := false, events := c.events + EndEvent(onEnd, c.score, level)), g)
        else
          (c.(lives := c.lives - 1, player := Start, playerDirection := ""), g)
      else (c, g)
    else (c, g)
  }

  /** The contact loop after its first `i` ghosts. */
  function ContactLoop(c: Contact, gs: seq<Ghost>, i: nat, home: Pos, level: int, onScore: bool, onEnd: bool): (r: (Contact, seq<Ghost>))
    requires i <= |gs|
    ensures |r.1| == |gs|
    ensures forall j :: i <= j < |gs| ==> r.1[j] == gs[j]
  {
    if i == 0 then (c, gs)
    else
      var prev := ContactLoop(c, gs, i - 1, home, level, onScore, onEnd);
      var t := TouchGhost(prev.0, gs[i - 1], home, level, onScore, onEnd);
      (t.0, prev.1[i - 1 := t.1])
  }

  /** The contact loop loses at most one life per ghost and never gains
      one, only adds to the score, never restarts a stopped game, stops the
      game once a loss brings the lives to zero, and leaves every ghost as
      it was or at the centre and no longer vulnerable. */
  lemma {:induction false} ContactLoopBounds(c: Contact, gs: seq<Ghost>, i: nat, home: Pos, level: int, onScore: bool, onEnd: bool)
    requires i <= |gs|
    ensures var r := ContactLoop(c, gs, i, home, level, onScore, onEnd);
      && c.lives - i <= r.0.lives <= c.lives
      && r.0.score >= c.score
      && (!c.running ==> !r.0.running)
      && (r.0.lives < c.lives && r.0.lives <= 0 ==> !r.0.running)
      && forall j :: 0 <= j < |gs| ==>
           (r.1[j] == gs[j] || (r.1[j].x == home.x && r.1[j].y == home.y && !r.1[j].vulnerable))
  {
    if i > 0 {
      ContactLoopBounds(c, gs, i - 1, home, level, onScore, onEnd);
    }
  }

  /** Before anything is scored, ghosts that are not vulnerable are
      harmless: with no vulnerable ghost the loop changes nothing. */
  lemma {:induction false} ContactLoopScoreless(c: Contact, gs: seq<Ghost>, i: nat, home: Pos, level: int, onScore: bool, onEnd: bool)
    requires i <= |gs|
    requires c.score <= 0.0
    requires forall g :: g in gs ==> !g.vulnerable
    ensures ContactLoop(c, gs, i, home, level, onScore, onEnd) == (c, gs)
  {
    if i > 0 {
      ContactLoopScoreless(c, gs, i - 1, home, level, onScore, onEnd);
      assert gs[i - 1] in gs;
      assert gs[i - 1 := gs[i - 1]] == gs;
    }
  }

  /** With every ghost 25 px or more from the player nothing happens. */
  lemma {:induction false} ContactLoopFar(c: Contact, gs: seq<Ghost>, i: nat, home: Pos, level: int, onScore: bool, onEnd: bool)
    requires i <= |gs|
    requires forall g :: g in gs ==> DistSq(c.player, Pos(g.x, g.y)) >= 625.0
    ensures ContactLoop(c, gs, i, home, level, onScore, onEnd) == (c, gs)
  {
    if i > 0 {
      ContactLoopFar(c, gs, i - 1, home, level, onScore, onEnd);
      assert gs[i - 1] in gs;
      assert gs[i - 1 := gs[i - 1]] == gs;
    }
  }

  // ---------------------------------------------------------------------
  // Loops over values

  /** The nested loops of generateMaze. */
  method BuildMaze(width: real, height: real, player: Pos, ds: seq<seq<Unit>>) returns (m: Maze)
    ensures m == Generated(width, height, player, ds)
  {
    var rows, cols := GridCount(height), GridCount(width);
    m := [];
    var y := 0;
    while y < rows
      invariant 0 <= y <= rows && |m| == y
      invariant forall j :: 0 <= j < y ==> m[j] == RawRow(j, rows, cols, ds)
    {
      var row: seq<int> := [];
      var x := 0;
      while x < cols
        invariant 0 <= x <= cols && |row| == x
        invariant forall i :: 0 <= i < x ==> row[i] == RawCell(y, i, rows, cols, CellDraw(ds, y, i))
      {
        var cell: int;
        if y == 0 || y == rows - 1 || x == 0 || x == cols - 1 {
          cell := 1;
        } else if CellDraw(ds, y, x) < 0.02 {
          cell := 1;
        } else {
          cell := 0;
        }
        row := row + [cell];
        x := x + 1;
      }
      assert row == RawRow(y, rows, cols, ds);
      m := m + [row];
      y := y + 1;
    }
    assert m == RawMaze(rows, cols, ds);
    var gx, gy := CellOf(player.x), CellOf(player.y);
    if gy >= 0 && gy < rows && gx >= 0 && gx < cols {
      assert |m[gy]| == cols;
      m := m[gy := m[gy][gx := 0]];
    }
  }

  /** The nested loops of spawnDots over the maze. */
  method LayDots(m: Maze, ds: seq<seq<Unit>>) returns (dots: seq<Pos>)
    ensures dots == GridDots(m, |m|, ds)
  {
    dots := [];
    var y := 0;
    while y < |m|
      invariant 0 <= y <= |m| && dots == GridDots(m, y, ds)
    {
      ghost var before := dots;
      var x := 0;
      while x < |m[y]|
        invariant 0 <= x <= |m[y]| && dots == before + RowDots(m[y], y, x, ds)
      {
        if m[y][x] == 0 && CellDraw(ds, y, x) < 0.8 {
          dots := dots + [Centre(x, y)];
        }
        x := x + 1;
      }
      y := y + 1;
    }
  }

  /** The top-up loop of spawnDots: below 20 dots, one attempt for every
      count from the current one up to 30. */
  method TopUp(m: Maze, width: real, height: real, base: seq<Pos>, ts: seq<TopUpDraw>) returns (dots: seq<Pos>)
    ensures dots == ToppedUp(m, width, height, base, ts)
  {
    dots := base;
    if |dots| < 20 {
      var rows: int, cols: int := GridCount(height), GridCount(width);
      var i := |dots|;
      while i < 30
        invariant |base| <= i <= 30
        invariant dots == base + TopUpRun(m, rows, cols, ts, i - |base|)
      {
        var t := TopUpDrawAt(ts, i - |base|);
        var x, y := InnerIndex(t.col, cols), InnerIndex(t.row, rows);
        assert TopUpRun(m, rows, cols, ts, i + 1 - |base|) == TopUpRun(m, rows, cols, ts, i - |base|) + TopUpDot(m, rows, cols, t);
        if 0 <= y < |m| && 0 <= x < |m[y]| && m[y][x] == 0 {
          Associative(base, TopUpRun(m, rows, cols, ts, i - |base|), [Centre(x, y)]);
          dots := dots + [Centre(x, y)];
        }
        i := i + 1;
      }
    }
  }

  /** The spawnGhosts loop. */
  method SpawnGhostList(level: int, width: real, height: real, ds: seq<Unit>) returns (gs: seq<Ghost>)
    ensures gs == NewGhosts(level, width, height, ds)
  {
    gs := [];
    var count := MinInt(1 + level / 2, 3);
    var i := 0;
    while i < count
      invariant 0 <= i && (count >= 0 ==> i <= count) && (count < 0 ==> i == 0)
      invariant |gs| == i
      invariant forall j :: 0 <= j < i ==> gs[j] == NewGhost(j, width, height, Pick(ds, j))
    {
      gs := gs + [NewGhost(i, width, height, Pick(ds, i))];
      i := i + 1;
    }
    assert i == GhostCount(level);
  }

  /** The forEach of updateGhosts: every ghost takes its turn, the i-th
      with the i-th draw. */
  method MoveEach(gs: seq<Ghost>, m: Maze, player: Pos, width: real, ds: seq<GhostDraw>) returns (moved: seq<Ghost>)
    ensures moved == MovedGhosts(gs, m, player, width, ds)
  {
    moved := gs;
    var i := 0;
    while i < |moved|
      invariant 0 <= i <= |moved| && |moved| == |gs|
      invariant forall j :: 0 <= j < i ==> moved[j] == MoveGhost(m, gs[j], player, width, GhostDrawAt(ds, j))
      invariant forall j :: i <= j < |moved| ==> moved[j] == gs[j]
    {
      moved := moved[i := MoveGhost(m, moved[i], player, width, GhostDrawAt(ds, i))];
      i := i + 1;
    }
  }

  /** The random values one level layout draws: the inner walls, the dot
      coin flips, the top-up cells and the ghosts' first directions. */
  datatype LevelDraws = LevelDraws(walls: seq<seq<Unit>>, dots: seq<seq<Unit>>, topUp: seq<TopUpDraw>, ghosts: seq<Unit>)

  // ---------------------------------------------------------------------
  // The game

  class Game {
    const width: real
    const height: real
    const engine: Engine
    var player: Pos
    var playerDirection: string
    var ghosts: seq<Ghost>
    var dots: seq<Pos>
    var powerPellets: seq<Pos>
    var maze: Maze
    var vulnerableTimer: int
    var lives: int

    /** The timer is within its range, and no more than the starting lives
        and three ghosts exist. */
    predicate Valid()
      reads this`vulnerableTimer, this`lives, this`ghosts
    {
      0 <= vulnerableTimer <= 300 && lives <= StartLives && |ghosts| <= 3
    }

    /** The maze has one row per whole cell of the canvas height and one
        column per whole cell of its width. */
    predicate Fits()
      reads this`maze
    {
      Rectangular(maze, GridCount(height), GridCount(width))
    }

    /** A ghost is vulnerable only while the vulnerability timer runs. */
    predicate Calm()
      reads this`vulnerableTimer, this`ghosts
    {
      vulnerableTimer == 0 ==> forall i :: 0 <= i < |ghosts| ==> !ghosts[i].vulnerable
    }

    /** The level layout initializeGame builds. */
    predicate Laid(level: int, d: LevelDraws)
      reads this`maze, this`dots, this`ghosts, this`powerPellets
    {
      && maze == Generated(width, height, Start, d.walls)
      && dots == SpawnedDots(maze, width, height, d.dots, d.topUp)
      && ghosts == NewGhosts(level, width, height, d.ghosts)
      && powerPellets == Corners(width, height)
    }

    function ContactOf(): Contact
      reads this`player, this`playerDirection, this`lives, engine`score, engine`running, engine`events
    {
      Contact(player, playerDirection, lives, engine.score, engine.running, engine.events)
    }

    constructor (width: real, height: real, d: LevelDraws)
      ensures this.width == width && this.height == height
      ensures fresh(engine) && !engine.running && engine.score == 0.0 && engine.level == 1
      ensures engine.events == [] && !engine.onScoreChange && !engine.onLevelChange && !engine.onGameEnd
      ensures player == Start && playerDirection == "" && lives == StartLives && vulnerableTimer == 0
      ensures Laid(1, d) && Valid() && Fits() && Calm()
    {
      this.width := width;
      this.height := height;
      engine := new Engine();
      player := Start;
      playerDirection := "";
      lives := StartLives;
      vulnerableTimer := 0;
      new;
      InitializeGame(d);
    }

    /** initializeGame: a new maze around the player, its dots, the ghosts
        for the current level and the four pellets. */
    method InitializeGame(d: LevelDraws)
      requires player == Start
      modifies this`maze, this`dots, this`ghosts, this`powerPellets
      ensures Laid(engine.level, d) && Fits()
    {
      GenerateMaze(d.walls);
      SpawnDots(d.dots, d.topUp);
      SpawnGhosts(d.ghosts);
      SpawnPowerPellets();
    }

    /** generateMaze: the border and random inner walls, with the player's
        cell opened. */
    method GenerateMaze(ds: seq<seq<Unit>>)
      modifies this`maze
      ensures maze == Generated(width, height, player, ds) && Fits()
    {
      maze := BuildMaze(width, height, player, ds);
      MazeShape(width, height, player, ds);
    }

    /** spawnDots: the grid pass and, below 20 dots, the top-up. */
    method SpawnDots(ds: seq<seq<Unit>>, ts: seq<TopUpDraw>)
      modifies this`dots
      ensures dots == SpawnedDots(maze, width, height, ds, ts)
    {
      var base := LayDots(maze, ds);
      dots := TopUp(maze, width, height, base, ts);
    }

    /** spawnGhosts: the ghosts of the current level. */
    method SpawnGhosts(ds: seq<Unit>)
      modifies this`ghosts
      ensures ghosts == NewGhosts(engine.level, width, height, ds)
    {
      ghosts := SpawnGhostList(engine.level, width, height, ds);
    }

    /** spawnPowerPellets: the four pellets near the corners. */
    method SpawnPowerPellets()
      modifies this`powerPellets
      ensures powerPellets == Corners(width, height)
    {
      powerPellets := Corners(width, height);
    }

    /** The key half of updatePlayer: the aimed point and the facing. */
    method Aim() returns (newX: real, newY: real)
      modifies this`playerDirection
      ensures Pos(newX, newY) == Target(player, engine.keys)
      ensures playerDirection == Facing(engine.keys, old(playerDirection))
    {
      newX, newY := player.x, player.y;
      var speed := 2.0;
      if "arrowup" in engine.keys || "w" in engine.keys {
        newY := newY - speed;
        playerDirection := "up";
      }
      if "arrowdown" in engine.keys || "s" in engine.keys {
        newY := newY + speed;
        playerDirection := "down";
      }
      if "arrowleft" in engine.keys || "a" in engine.keys {
        newX := newX - speed;
        playerDirection := "left";
      }
      if "arrowright" in engine.keys || "d" in engine.keys {
        newX := newX + speed;
        playerDirection := "right";
      }
    }

    /** updatePlayer: the facing follows the held keys and the position
        takes the wall-checked step. */
    method UpdatePlayer()
      modifies this`player, this`playerDirection
      ensures player == Stepped(maze, old(player), engine.keys, width)
      ensures playerDirection == Facing(engine.keys, old(playerDirection))
    {
      var newX, newY := Aim();
      if CanMoveTo(maze, newX, player.y) {
        player := player.(x := newX);
      }
      if CanMoveTo(maze, player.x, newY) {
        player := player.(y := newY);
      }
      if player.x < 0.0 {
        player := player.(x := width);
      }
      if player.x > width {
        player := player.(x := 0.0);
      }
    }

    /** updateGhosts: every ghost takes its step. */
    method UpdateGhosts(ds: seq<GhostDraw>)
      requires Calm()
      modifies this`ghosts
      ensures ghosts == MovedGhosts(old(ghosts), maze, player, width, ds)
      ensures Calm()
    {
      ghosts := MoveEach(ghosts, maze, player, width, ds);
      MovedKeepsVulnerable(old(ghosts), maze, player, width, ds);
    }

    /** The forEach that sets every ghost's vulnerable flag. */
    method SetVulnerable(b: bool)
      modifies this`ghosts
      ensures ghosts == WithVulnerable(old(ghosts), b)
    {
      var i := 0;
      while i < |ghosts|
        invariant 0 <= i <= |ghosts| && |ghosts| == |old(ghosts)|
        invariant forall j :: 0 <= j < i ==> ghosts[j] == old(ghosts)[j].(vulnerable := b)
        invariant forall j :: i <= j < |ghosts| ==> ghosts[j] == old(ghosts)[j]
      {
        ghosts := ghosts[i := ghosts[i].(vulnerable := b)];
        i := i + 1;
      }
    }

    /** updateVulnerableTimer: a positive timer drops by one and clears every
        ghost's vulnerability when it reaches zero; zero stays zero. */
    method UpdateVulnerableTimer()
      requires Calm()
      modifies this`vulnerableTimer, this`ghosts
      ensures vulnerableTimer == if old(vulnerableTimer) > 0 then old(vulnerableTimer) - 1 else old(vulnerableTimer)
      ensures ghosts == if old(vulnerableTimer) == 1 then WithVulnerable(old(ghosts), false) else old(ghosts)
      ensures Calm()
    {
      if vulnerableTimer > 0 {
        vulnerableTimer := vulnerableTimer - 1;
        if vulnerableTimer == 0 {
          SetVulnerable(false);
        }
      }
    }

    /** The dot filter of checkCollisions: every dot closer than 15 px goes,
        each one for 10 points. */
    method CollectDots()
      modifies this`dots, engine`score, engine`events
      ensures dots == FarFrom(old(dots), player, 225.0)
      ensures var k := NearCount(old(dots), player, 225.0);
        && engine.score == old(engine.score) + 10.0 * k as real
        && engine.events == old(engine.events) + ScoreRun(engine.onScoreChange, old(engine.score), 10.0, k)
    {
      var ps, p := dots, player;
      ghost var s0, log0 := engine.score, engine.events;
      var kept: seq<Pos> := [];
      ghost var k: nat := 0;
      var i := 0;
      while i < |ps|
        invariant 0 <= i <= |ps|
        invariant kept == FarFrom(ps[..i], p, 225.0) && k == NearCount(ps[..i], p, 225.0)
        invariant engine.score == s0 + 10.0 * k as real
        invariant engine.events == log0 + ScoreRun(engine.onScoreChange, s0, 10.0, k)
      {
        var dot := ps[i];
        FilterStep(ps, i, p, 225.0);
        if DistSq(p, dot) < 225.0 {
          engine.Award(10.0, s0, log0, k);
          k := k + 1;
        } else {
          kept := kept + [dot];
        }
        i := i + 1;
      }
      assert ps[..i] == ps;
      dots := kept;
    }

    /** The power-pellet filter: every pellet closer than 20 px goes, each
        one for 50 points, a 300-frame timer and every ghost vulnerable. */
    method CollectPellets()
      requires Calm()
      modifies this`powerPellets, this`vulnerableTimer, this`ghosts, engine`score, engine`events
      ensures powerPellets == FarFrom(old(powerPellets), player, 400.0)
      ensures var k := NearCount(old(powerPellets), player, 400.0);
        && engine.score == old(engine.score) + 50.0 * k as real
        && engine.events == old(engine.events) + ScoreRun(engine.onScoreChange, old(engine.score), 50.0, k)
        && vulnerableTimer == (if k > 0 then 300 else old(vulnerableTimer))
        && ghosts == FlaggedIf(old(ghosts), k)
      ensures Calm()
    {
      var ps, p := powerPellets, player;
      ghost var s0, log0, v0, gs0 := engine.score, engine.events, vulnerableTimer, ghosts;
      ghost var flagged := WithVulnerable(gs0, true);
      var kept: seq<Pos> := [];
      ghost var k: nat := 0;
      var i := 0;
      while i < |ps|
        invariant 0 <= i <= |ps|
        invariant kept == FarFrom(ps[..i], p, 400.0) && k == NearCount(ps[..i], p, 400.0)
        invariant engine.score == s0 + 50.0 * k as real
        invariant engine.events == log0 + ScoreRun(engine.onScoreChange, s0, 50.0, k)
        invariant k == 0 ==> vulnerableTimer == v0 && ghosts == gs0
        invariant k > 0 ==> vulnerableTimer == 300 && ghosts == flagged
      {
        var pellet := ps[i];
        FilterStep(ps, i, p, 400.0);
        if DistSq(p, pellet) < 400.0 {
          engine.Award(50.0, s0, log0, k);
          WithVulnerableTwice(gs0, true);
          EatPellet();
          k := k + 1;
        } else {
          kept := kept + [pellet];
        }
        i := i + 1;
      }
      assert ps[..i] == ps;
      powerPellets := kept;
    }

    /** The effects of one eaten power pellet besides its 50 points. */
    method EatPellet()
      modifies this`vulnerableTimer, this`ghosts
      ensures vulnerableTimer == 300 && ghosts == WithVulnerable(old(ghosts), true)
    {
      vulnerableTimer := 300;
      SetVulnerable(true);
    }

    /** One ghost of the contact forEach. */
    method MeetGhost(i: nat, home: Pos)
      requires i < |ghosts|
      modifies this`player, this`playerDirection, this`lives, this`ghosts, engine`score, engine`events, engine`running
      ensures var t := TouchGhost(old(ContactOf()), old(ghosts[i]), home, engine.level, engine.onScoreChange, engine.onGameEnd);
        ContactOf() == t.0 && ghosts == old(ghosts)[i := t.1]
    {
      var g := ghosts[i];
      if DistSq(player, Pos(g.x, g.y)) < 625.0 {
        if g.vulnerable {
          engine.UpdateScore(engine.score + 200.0);
          ghosts := ghosts[i := g.(x := home.x, y := home.y, vulnerable := false)];
        } else if engine.score > 0.0 {
          lives := lives - 1;
          if lives <= 0 {
            engine.EndGame();
          } else {
            player := Start;
            playerDirection := "";
          }
        }
      }
    }

    /** The ghost-contact forEach of checkCollisions. */
    method TouchGhosts()
      requires Calm()
      modifies this`player, this`playerDirection, this`lives, this`ghosts, engine`score, engine`events, engine`running
      ensures (ContactOf(), ghosts) == ContactLoop(old(ContactOf()), old(ghosts), |old(ghosts)|, Pos(width / 2.0, height / 2.0),
                                                   engine.level, engine.onScoreChange, engine.onGameEnd)
      ensures old(lives) - |old(ghosts)| <= lives <= old(lives) && engine.score >= old(engine.score)
      ensures (lives < old(lives) && lives <= 0) ==> !engine.running
      ensures !old(engine.running) ==> !engine.running
      ensures |ghosts| == |old(ghosts)| && Calm()
    {
      ghost var c0 := ContactOf();
      ghost var gs := ghosts;
      ghost var level, onScore, onEnd := engine.level, engine.onScoreChange, engine.onGameEnd;
      var home := Pos(width / 2.0, height / 2.0);
      var i := 0;
      while i < |ghosts|
        invariant 0 <= i <= |ghosts| && |ghosts| == |gs|
        invariant (ContactOf(), ghosts) == ContactLoop(c0, gs, i, home, level, onScore, onEnd)
      {
        MeetGhost(i, home);
        i := i + 1;
      }
      ContactLoopBounds(c0, gs, |gs|, home, level, onScore, onEnd);
    }

    /** The two pickup filters of checkCollisions: the dots, then the power
        pellets, both around the same player position. */
    method Pickups()
      requires Valid() && Calm()
      modifies this`dots, this`powerPellets, this`vulnerableTimer, this`ghosts, engine`score, engine`events
      ensures Valid() && Calm()
      ensures dots == FarFrom(old(dots), player, 225.0)
      ensures powerPellets == FarFrom(old(powerPellets), player, 400.0)
      ensures var k2 := NearCount(old(powerPellets), player, 400.0);
        && vulnerableTimer == (if k2 > 0 then 300 else old(vulnerableTimer))
        && ghosts == FlaggedIf(old(ghosts), k2)
      ensures ContactOf() == Pickup(old(ContactOf()), old(dots), old(powerPellets), engine.onScoreChange)
    {
      ghost var c0 := ContactOf();
      CollectDots();
      ghost var s1, e1 := engine.score, engine.events;
      CollectPellets();
      PickupFields(c0, ContactOf(), s1, e1, old(dots), old(powerPellets), engine.onScoreChange);
    }

    /** checkCollisions: dots, then power pellets, then ghost contact.
        `picked` and `flagged` name the contact state and the ghosts between
        the pickups and the contact loop. */
    method CheckCollisions() returns (ghost picked: Contact, ghost flagged: seq<Ghost>)
      requires Valid() && Calm()
      modifies this`dots, this`powerPellets, this`vulnerableTimer, this`ghosts,
               this`player, this`playerDirection, this`lives, engine`score, engine`events, engine`running
      ensures Valid() && Calm()
      ensures old(lives) - |old(ghosts)| <= lives <= old(lives)
      ensures engine.score >= old(engine.score)
      ensures (lives < old(lives) && lives <= 0) ==> !engine.running
      ensures !old(engine.running) ==> !engine.running
      ensures dots == FarFrom(old(dots), old(player), 225.0)
      ensures powerPellets == FarFrom(old(powerPellets), old(player), 400.0)
      ensures var k2 := NearCount(old(powerPellets), old(player), 400.0);
        && picked == Pickup(old(ContactOf()), old(dots), old(powerPellets), engine.onScoreChange)
        && flagged == FlaggedIf(old(ghosts), k2)
        && vulnerableTimer == (if k2 > 0 then 300 else old(vulnerableTimer))
      ensures (ContactOf(), ghosts) == ContactLoop(picked, flagged, |flagged|, Pos(width / 2.0, height / 2.0),
                                                   engine.level, engine.onScoreChange, engine.onGameEnd)
    {
      Pickups();
      picked, flagged := ContactOf(), ghosts;
      TouchGhosts();
    }

    /** nextLevel: the level and the score go up, the player goes back to
        the start and a new layout is built for the new level. */
    method NextLevel(d: LevelDraws)
      requires Valid()
      modifies this`player, this`playerDirection, this`maze, this`dots, this`ghosts, this`powerPellets,
               engine`level, engine`score, engine`events
      ensures engine.level == old(engine.level) + 1 && engine.score == old(engine.score) + 1000.0
      ensures engine.events == old(engine.events) + LevelEvent(engine.onLevelChange, old(engine.level) + 1)
                                                  + ScoreEvent(engine.onScoreChange, old(engine.score) + 1000.0)
      ensures player == Start && playerDirection == ""
      ensures Laid(engine.level, d) && Valid() && Fits() && Calm()
    {
      engine.UpdateLevel(engine.level + 1);
      engine.UpdateScore(engine.score + 1000.0);
      player := Start;
      playerDirection := "";
      InitializeGame(d);
    }

    /** The win check of update: a new level once no dot is left and
        something has been scored. */
    method CheckWin(d: LevelDraws)
      requires Valid()
      modifies this`player, this`playerDirection, this`maze, this`dots, this`ghosts, this`powerPellets,
               engine`level, engine`score, engine`events
      ensures Valid() && (old(Calm()) ==> Calm()) && (old(Fits()) ==> Fits())
      ensures var won := old(|dots|) == 0 && old(engine.score) > 0.0;
        && engine.level == old(engine.level) + (if won then 1 else 0)
        && engine.score == old(engine.score) + (if won then 1000.0 else 0.0)
        && (won ==> player == Start && Laid(engine.level, d))
        && (!won ==> player == old(player) && maze == old(maze) && dots == old(dots) && ghosts == old(ghosts)
                     && engine.events == old(engine.events))
    {
      if |dots| == 0 && engine.score > 0.0 {
        NextLevel(d);
      }
    }

    /** update: nothing while stopped; otherwise the player, the ghosts,
        the timer and the collisions, then the win check, which runs even
        when a collision has just ended the game. */
    method Update(ds: seq<GhostDraw>, d: LevelDraws)
      requires Valid() && Fits() && Calm()
      modifies this, engine`level, engine`score, engine`events, engine`running
      ensures Valid() && Fits() && Calm()
      ensures !old(engine.running) ==>
        player == old(player) && dots == old(dots) && lives == old(lives)
        && engine.score == old(engine.score) && engine.events == old(engine.events)
      ensures old(lives) - old(|ghosts|) <= lives <= old(lives)
      ensures engine.score >= old(engine.score)
      ensures engine.level == old(engine.level) || engine.level == old(engine.level) + 1
      ensures engine.level != old(engine.level) ==> player == Start && Laid(engine.level, d)
      ensures (lives < old(lives) && lives <= 0) ==> !engine.running
      ensures !old(engine.running) ==> !engine.running
    {
      if !engine.running {
        return;
      }
      UpdatePlayer();
      UpdateGhosts(ds);
      UpdateVulnerableTimer();
      ghost var picked, flagged := CheckCollisions();
      CheckWin(d);
    }

    /** One animation frame of this game: update when running and not
        paused, then request the next frame if the loop was running. */
    method Frame(ds: seq<GhostDraw>, d: LevelDraws)
      requires Valid() && Fits() && Calm()
      modifies this, engine`level, engine`score, engine`events, engine`running, engine`frameRequested
      ensures Valid() && Fits() && Calm()
      ensures engine.frameRequested == old(engine.running)
      ensures !(old(engine.running) && !old(engine.paused)) ==>
        player == old(player) && lives == old(lives) && engine.score == old(engine.score)
      ensures engine.score >= old(engine.score) && lives <= old(lives)
    {
      var wasRunning := engine.running;
      if UpdatePhase in FramePhases(engine.running, engine.paused) {
        Update(ds, d);
      }
      engine.ScheduleNext(wasRunning);
    }
  }
}
