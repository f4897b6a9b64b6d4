/** The crypto-collector game: Pac-Man on a free (non-grid) board with a
    ghost spawn box in the middle, dots and four power pellets, a level timer,
    and ghosts that wait a few seconds before they start to move. */
module SimplePacMan {
  import opened Common
  import opened GameEngine

  const GridSize: real := 40.0

  /** The four movement directions, in the order the ghost logic lists them. */
  const Directions: seq<string> := ["up", "down", "left", "right"]

  /** Where the player starts every life and every level. */
  const Start: Pos := Pos(200.0, 200.0)

  datatype Ghost = Ghost(
    x: real, y: real, direction: string, vulnerable: bool, speed: real,
    /** The Date.now() value of the ghost's last step, in milliseconds. */
    lastMoveTime: int,
    inBox: bool, exitDelay: int)

  /** The Math.random() values one ghost may draw in one frame: the chase and
      flee coin flips, the random-turn flip and its direction, and the pick
      among the open directions once the ghost is blocked. */
  datatype GhostDraw = GhostDraw(chase: Unit, flee: Unit, turn: Unit, pick: Unit, escape: Unit)

  function DrawAt(ds: seq<GhostDraw>, i: int): GhostDraw
  {
    if 0 <= i < |ds| then ds[i] else GhostDraw(0.0, 0.0, 0.0, 0.0, 0.0)
  }

  /** The centre of the canvas as the layout code computes it (Math.floor). */
  function MidX(width: real): real { Floor(width / 2.0) as real }
  function MidY(height: real): real { Floor(height / 2.0) as real }

  // ---------------------------------------------------------------------
  // Level parameters

  /** initializeGame's timer: 60 s on level 1, 5 s less per level, never
      below 20 s. */
  function MaxTimeFor(level: int): (t: real)
    ensures t >= 20.0
    ensures level >= 1 ==> t <= 60.0
    ensures level >= 9 ==> t == 20.0
    ensures level <= 9 ==> t == (65 - 5 * level) as real
  {
    MaxInt(60 - (level - 1) * 5, 20) as real
  }

  /** createGhosts' ghost count, min(level + 1, 3); a count below one makes
      the loop run no time. */
  function GhostCount(level: int): (n: nat)
    ensures n <= 3
    ensures level == 1 ==> n == 2
    ensures level >= 2 ==> n == 3
    ensures level <= -1 ==> n == 0
  {
    if MinInt(level + 1, 3) <= 0 then 0 else MinInt(level + 1, 3)
  }

  function GhostSpeed(level: int): real
  {
    if level == 1 then 0.1 else 0.3 + level as real * 0.05
  }

  /** The corner a ghost starts in: six grid cells in from the edges. */
  function GhostStart(i: nat, width: real, height: real): Pos
  {
    var safe := GridSize * 6.0;
    if i == 0 then Pos(width - safe, safe)
    else if i == 1 then Pos(safe, height - safe)
    else if i == 2 then Pos(width - safe, height - safe)
    else Pos(safe, safe)
  }

  function NewGhost(i: nat, level: int, width: real, height: real, u: Unit): Ghost
  {
    var s := GhostStart(i, width, height);
    Ghost(s.x, s.y, Directions[IndexOf(u, 4)], false, GhostSpeed(level), 0, true, 180 + 60 * i)
  }

  /** The ghosts createGhosts builds; `dirDraws[i]` picks ghost i's first
      direction. */
  function NewGhosts(level: int, width: real, height: real, dirDraws: seq<Unit>): (gs: seq<Ghost>)
    ensures |gs| == GhostCount(level)
    ensures forall i :: 0 <= i < |gs| ==>
      && !gs[i].vulnerable && gs[i].inBox && gs[i].lastMoveTime == 0
      && gs[i].exitDelay == 180 + 60 * i && gs[i].direction in Directions
      && Pos(gs[i].x, gs[i].y) == GhostStart(i, width, height)
  {
    seq(GhostCount(level), i requires 0 <= i => NewGhost(i, level, width, height, Pick(dirDraws, i)))
  }

  /** The four power pellets, two grid cells in from each corner. */
  function Corners(width: real, height: real): seq<Pos>
  {
    [Pos(GridSize * 2.0, GridSize * 2.0), Pos(width - GridSize * 2.0, GridSize * 2.0),
     Pos(GridSize * 2.0, height - GridSize * 2.0), Pos(width - GridSize * 2.0, height - GridSize * 2.0)]
  }

  /** The grid-rounded centre an eaten ghost is sent back to. */
  function GhostHome(width: real, height: real): Pos
  {
    Pos(Round(width / 2.0 / GridSize) as real * GridSize, Round(height / 2.0 / GridSize) as real * GridSize)
  }

  // ---------------------------------------------------------------------
  // Walls of the spawn box

  /** The walls the first loop of createWalls pushes for columns `x`,
      `x + 15`, ... up to `midX + 30`: a bottom wall for every column and a
      top wall only outside the 15 px exit. */
  function RowWalls(x: int, midX: int, midY: int): seq<Pos>
    decreases midX + 45 - x
  {
    if x <= midX + 30 then
      [Pos(x as real, (midY + 30) as real)]
      + (if AbsInt(x - midX) > 15 then [Pos(x as real, (midY - 30) as real)] else [])
      + RowWalls(x + 15, midX, midY)
    else []
  }

  /** The walls the second loop pushes for rows `y`, `y + 15`, ... up to
      `midY + 30`: a left and a right wall each. */
  function ColumnWalls(y: int, midX: int, midY: int): seq<Pos>
    decreases midY + 45 - y
  {
    if y <= midY + 30 then
      [Pos((midX - 30) as real, y as real), Pos((midX + 30) as real, y as real)] + ColumnWalls(y + 15, midX, midY)
    else []
  }

  function AbsInt(k: int): int { if k < 0 then -k else k }

  function SpawnBoxWalls(midX: int, midY: int): seq<Pos>
  {
    RowWalls(midX - 30, midX, midY) + ColumnWalls(midY - 15, midX, midY)
  }

  /** A wall lies on the outline of the 60 px spawn box: on its left or right
      side, on its bottom, or on its top outside the exit. */
  predicate OnOutline(w: Pos, midX: real, midY: real)
  {
    || (Abs(w.x - midX) == 30.0 && midY - 15.0 <= w.y <= midY + 30.0)
    || (w.y == midY + 30.0 && Abs(w.x - midX) <= 30.0)
    || (w.y == midY - 30.0 && 15.0 < Abs(w.x - midX) <= 30.0)
  }

  lemma {:induction false} RowWallsOnOutline(x: int, midX: int, midY: int)
    requires x >= midX - 30
    ensures forall w :: w in RowWalls(x, midX, midY) ==> OnOutline(w, midX as real, midY as real)
    decreases midX + 45 - x
  {
    if x <= midX + 30 {
      RowWallsOnOutline(x + 15, midX, midY);
    }
  }

  lemma {:induction false} ColumnWallsOnOutline(y: int, midX: int, midY: int)
    requires y >= midY - 15
    ensures forall w :: w in ColumnWalls(y, midX, midY) ==> OnOutline(w, midX as real, midY as real)
    decreases midY + 45 - y
  {
    if y <= midY + 30 {
      ColumnWallsOnOutline(y + 15, midX, midY);
    }
  }

  /** isWall: some wall is within 10 px on both axes. */
  function IsWall(walls: seq<Pos>, x: real, y: real): (b: bool)
    ensures b <==> exists i :: 0 <= i < |walls| && Abs(walls[i].x - x) < 10.0 && Abs(walls[i].y - y) < 10.0
  {
    if walls == [] then false
    else
      var n := |walls| - 1;
      assert forall i :: 0 <= i < n ==> walls[..n][i] == walls[i];
      IsWall(walls[..n], x, y) || (Abs(walls[n].x - x) < 10.0 && Abs(walls[n].y - y) < 10.0)
  }

  /** Every wall createWalls builds lies on the box outline, so the middle of
      the top side is open and the middle of the bottom side is closed. */
  lemma SpawnBoxShape(midX: int, midY: int, x: real)
    requires Abs(x - midX as real) < 5.0
    ensures forall w :: w in SpawnBoxWalls(midX, midY) ==> OnOutline(w, midX as real, midY as real)
    ensures !IsWall(SpawnBoxWalls(midX, midY), x, (midY - 30) as real)
    ensures IsWall(SpawnBoxWalls(midX, midY), midX as real, (midY + 30) as real)
  {
    RowWallsOnOutline(midX - 30, midX, midY);
    ColumnWallsOnOutline(midY - 15, midX, midY);
    var walls := SpawnBoxWalls(midX, midY);
    forall i | 0 <= i < |walls|
      ensures !(Abs(walls[i].x - x) < 10.0 && Abs(walls[i].y - (midY - 30) as real) < 10.0)
    {
      assert walls[i] in walls;
    }
    var bottom := Pos(midX as real, (midY + 30) as real);
    assert RowWalls(midX, midX, midY) == [bottom] + RowWalls(midX + 15, midX, midY);
    assert RowWalls(midX - 15, midX, midY)
      == [Pos((midX - 15) as real, (midY + 30) as real)] + RowWalls(midX, midX, midY);
    assert RowWalls(midX - 30, midX, midY)
      == [Pos((midX - 30) as real, (midY + 30) as real), Pos((midX - 30) as real, (midY - 30) as real)]
         + RowWalls(midX - 15, midX, midY);
    assert walls[3] == bottom;
  }

  /** isInSpawnBox: strictly within 30 px of the (unrounded) centre on both
      axes. */
  function IsInSpawnBox(x: real, y: real, width: real, height: real): (b: bool)
    ensures b <==> width / 2.0 - 30.0 < x < width / 2.0 + 30.0 && height / 2.0 - 30.0 < y < height / 2.0 + 30.0
  {
    Abs(x - width / 2.0) < 30.0 && Abs(y - height / 2.0) < 30.0
  }

  /** The ghosts' start corners lie outside the spawn box they are flagged to
      be in, unless both canvas sides are strictly between 420 and 540 px. */
  lemma StartCornersOutsideBox(i: nat, width: real, height: real)
    requires i < 3
    requires !(420.0 < width < 540.0 && 420.0 < height < 540.0)
    ensures var s := GhostStart(i, width, height); !IsInSpawnBox(s.x, s.y, width, height)
  {
  }

  // ---------------------------------------------------------------------
  // Movement rules

  /** A point `d` px away in `dir`; an unknown direction stays put. */
  function Offset(x: real, y: real, dir: string, d: real): Pos
  {
    if dir == "up" then Pos(x, y - d)
    else if dir == "down" then Pos(x, y + d)
    else if dir == "left" then Pos(x - d, y)
    else if dir == "right" then Pos(x + d, y)
    else Pos(x, y)
  }

  /** canMoveInDirection: one grid step inside the inclusive playable area
      and not onto a wall. */
  function CanMoveInDirection(x: real, y: real, dir: string, walls: seq<Pos>, width: real, height: real): bool
  {
    var n := Offset(x, y, dir, GridSize);
    && GridSize <= n.x <= width - GridSize && GridSize <= n.y <= height - GridSize
    && !IsWall(walls, n.x, n.y)
  }

  /** The cell test of updateGhosts: like canMoveInDirection but with the
      right and bottom edges excluded. */
  predicate GhostCellOK(x: real, y: real, walls: seq<Pos>, width: real, height: real)
  {
    && GridSize <= x < width - GridSize && GridSize <= y < height - GridSize
    && !IsWall(walls, x, y)
  }

  /** The two cell tests differ exactly on the right and bottom edges. */
  lemma CanMoveVersusGhostCell(x: real, y: real, dir: string, walls: seq<Pos>, width: real, height: real)
    ensures var n := Offset(x, y, dir, GridSize);
      CanMoveInDirection(x, y, dir, walls, width, height) <==>
        || GhostCellOK(n.x, n.y, walls, width, height)
        || ((n.x == width - GridSize || n.y == height - GridSize)
            && GridSize <= n.x <= width - GridSize && GridSize <= n.y <= height - GridSize
            && !IsWall(walls, n.x, n.y))
  {
  }

  /** The directions whose grid step from (x, y) passes the ghost cell
      test, in their listed order. */
  function OpenDirections(ds: seq<string>, x: real, y: real, walls: seq<Pos>, width: real, height: real): (r: seq<string>)
    ensures |r| <= |ds|
    ensures forall d :: d in r <==> d in ds && var n := Offset(x, y, d, GridSize); GhostCellOK(n.x, n.y, walls, width, height)
  {
    if ds == [] then []
    else
      var n := Offset(x, y, ds[0], GridSize);
      assert ds == [ds[0]] + ds[1..];
      (if GhostCellOK(n.x, n.y, walls, width, height) then [ds[0]] else [])
      + OpenDirections(ds[1..], x, y, walls, width, height)
  }

  /** The speed gate of updateGhosts: a ghost waits while fewer than
      150 / speed ms have passed (a zero speed waits for ever). */
  predicate Waiting(elapsed: int, speed: real)
  {
    if speed == 0.0 then true else elapsed as real < 150.0 / speed
  }

  /** The direction a ghost picks before it steps: towards the player when it
      chases, away when it flees, otherwise a random turn now and then. */
  function ChooseDirection(g: Ghost, player: Pos, u: GhostDraw): string
  {
    var ax, ay := Abs(g.x - player.x), Abs(g.y - player.y);
    var dist := ax + ay;
    var chase := !g.vulnerable && dist < 200.0 && u.chase < 0.4;
    var flee := g.vulnerable && dist < 150.0 && u.flee < 0.6;
    if chase then
      if ax > ay then (if g.x > player.x then "left" else "right")
      else (if g.y > player.y then "up" else "down")
    else if flee then
      if ax > ay then (if g.x > player.x then "right" else "left")
      else (if g.y > player.y then "down" else "up")
    else if u.turn < 0.15 then Directions[IndexOf(u.pick, 4)]
    else g.direction
  }

  /** The recalculation after a blocked step: only the new direction's axis
      of the blocked target is recomputed; the other axis keeps the blocked
      target's value. */
  function Redirect(next: Pos, g: Ghost, dir: string): Pos
  {
    if dir == "up" then Pos(next.x, g.y - GridSize)
    else if dir == "down" then Pos(next.x, g.y + GridSize)
    else if dir == "left" then Pos(g.x - GridSize, next.y)
    else if dir == "right" then Pos(g.x + GridSize, next.y)
    else next
  }

  /** One ghost's turn in updateGhosts. */
  function MoveGhost(g: Ghost, player: Pos, walls: seq<Pos>, width: real, height: real, now: int, u: GhostDraw): (r: Ghost)
    ensures Waiting(now - g.lastMoveTime, g.speed) ==> r == g
    ensures !Waiting(now - g.lastMoveTime, g.speed) ==> r.lastMoveTime == now
    ensures (r.x == g.x && r.y == g.y) || GhostCellOK(r.x, r.y, walls, width, height)
    ensures Abs(r.x - g.x) <= GridSize && Abs(r.y - g.y) <= GridSize
    ensures r.vulnerable == g.vulnerable && r.speed == g.speed && r.inBox == g.inBox && r.exitDelay == g.exitDelay
  {
    if Waiting(now - g.lastMoveTime, g.speed) then g
    else
      var g1 := g.(lastMoveTime := now, direction := ChooseDirection(g, player, u));
      var next := Offset(g1.x, g1.y, g1.direction, GridSize);
      var open := OpenDirections(Directions, g1.x, g1.y, walls, width, height);
      var blocked := !GhostCellOK(next.x, next.y, walls, width, height);
      var dir := if blocked && |open| > 0 then open[IndexOf(u.escape, |open|)] else g1.direction;
      var target := if blocked && |open| > 0 then Redirect(next, g1, dir) else next;
      if GhostCellOK(target.x, target.y, walls, width, height) then g1.(direction := dir, x := target.x, y := target.y)
      else g1.(direction := dir)
  }

  /** The ghosts after the forEach of updateGhosts. */
  function MovedGhosts(gs: seq<Ghost>, player: Pos, walls: seq<Pos>, width: real, height: real, now: int, ds: seq<GhostDraw>): (r: seq<Ghost>)
    ensures |r| == |gs|
    ensures forall i :: 0 <= i < |gs| ==> r[i] == MoveGhost(gs[i], player, walls, width, height, now, DrawAt(ds, i))
  {
    seq(|gs|, i requires 0 <= i < |gs| => MoveGhost(gs[i], player, walls, width, height, now, DrawAt(ds, i)))
  }

  /** A ghost's position only ever changes to an open cell one grid step (or
      one diagonal step) away. */
  lemma GhostsStayOnOpenCells(gs: seq<Ghost>, player: Pos, walls: seq<Pos>, width: real, height: real, now: int, ds: seq<GhostDraw>, i: int)
    requires 0 <= i < |gs|
    ensures var r := MovedGhosts(gs, player, walls, width, height, now, ds)[i];
      (r.x == gs[i].x && r.y == gs[i].y) ||
      (GridSize <= r.x < width - GridSize && GridSize <= r.y < height - GridSize && !IsWall(walls, r.x, r.y))
  {
  }

  function WithVulnerable(gs: seq<Ghost>, b: bool): (r: seq<Ghost>)
    ensures |r| == |gs|
    ensures forall i :: 0 <= i < |gs| ==> r[i] == gs[i].(vulnerable := b)
  {
    seq(|gs|, i requires 0 <= i < |gs| => gs[i].(vulnerable := b))
  }

  /** The ghosts after `k` eaten power pellets: all vulnerable once at
      least one was eaten. */
  function FlaggedIf(gs: seq<Ghost>, k: nat): (r: seq<Ghost>)
    ensures |r| == |gs|
  {
    if k > 0 then WithVulnerable(gs, true) else gs
  }

  /** Setting every flag twice is setting it once. */
  lemma WithVulnerableTwice(gs: seq<Ghost>, b: bool)
    ensures WithVulnerable(WithVulnerable(gs, b), b) == WithVulnerable(gs, b)
  {
  }

  /** The arrow-key and letter tests of updatePlayer as written: the camel
      case key names and upper-case letters are never stored, because the
      engine stores `e.key.toLowerCase()`. */
  predicate UpHeldAsWritten(keys: set<string>, touch: seq<string>)
  {
    "ArrowUp" in keys || "w" in keys || "W" in keys || "up" in touch
  }

  predicate DownHeldAsWritten(keys: set<string>, touch: seq<string>)
  {
    "ArrowDown" in keys || "s" in keys || "S" in keys || "down" in touch
  }

  predicate LeftHeldAsWritten(keys: set<string>, touch: seq<string>)
  {
    "ArrowLeft" in keys || "a" in keys || "A" in keys || "left" in touch
  }

  predicate RightHeldAsWritten(keys: set<string>, touch: seq<string>)
  {
    "ArrowRight" in keys || "d" in keys || "D" in keys || "right" in touch
  }

  /** The direction choice of updatePlayer with the key tests as written. */
  function ChosenDirectionAsWritten(keys: set<string>, touch: seq<string>, next: string): (d: string)
    ensures |touch| > 0 ==> d == touch[0]
    ensures |touch| == 0 && UpHeldAsWritten(keys, touch) ==> d == "up"
    ensures (|touch| == 0 && !UpHeldAsWritten(keys, touch) && !DownHeldAsWritten(keys, touch)
             && !LeftHeldAsWritten(keys, touch) && !RightHeldAsWritten(keys, touch)) ==> d == next
  {
    var d := if UpHeldAsWritten(keys, touch) then "up"
             else if DownHeldAsWritten(keys, touch) then "down"
             else if LeftHeldAsWritten(keys, touch) then "left"
             else if RightHeldAsWritten(keys, touch) then "right"
             else next;
    if |touch| > 0 then touch[0] else d
  }

  /** The tests as the engine's key names evidently intend them. */
  predicate UpHeld(keys: set<string>, touch: seq<string>) { "arrowup" in keys || "w" in keys || "up" in touch }
  predicate DownHeld(keys: set<string>, touch: seq<string>) { "arrowdown" in keys || "s" in keys || "down" in touch }
  predicate LeftHeld(keys: set<string>, touch: seq<string>) { "arrowleft" in keys || "a" in keys || "left" in touch }
  predicate RightHeld(keys: set<string>, touch: seq<string>) { "arrowright" in keys || "d" in keys || "right" in touch }

  /** No key name the engine stores has an upper-case ASCII letter, so
      "ArrowUp" and "W" are never among the keys. */
  lemma StoredNamesAreLowerCase(key: string, code: string)
    ensures "ArrowUp" !in KeyNames(key, code) && "W" !in KeyNames(key, code)
  {
    if code != "Space" && |key| > 0 {
      assert Lower(key)[0] != 'A' && Lower(key)[0] != 'W';
    }
  }

  /** Holding the ArrowUp key alone does not steer Pac-Man as written: no
      key test fires and no direction is chosen. */
  lemma ArrowUpIgnoredAsWritten()
    ensures KeyNames("ArrowUp", "ArrowUp") == {"arrowup"}
    ensures ChosenDirectionAsWritten(KeyNames("ArrowUp", "ArrowUp"), [], "") == ""
  {
    LowerArrowUp();
    var k := "arrowup";
    assert "ArrowUp"[0] != k[0] && "ArrowDown"[0] != k[0] && "ArrowLeft"[0] != k[0] && "ArrowRight"[0] != k[0];
    assert !UpHeldAsWritten({k}, []) && !DownHeldAsWritten({k}, []);
    assert !LeftHeldAsWritten({k}, []) && !RightHeldAsWritten({k}, []);
  }

  /** With the key tests the engine's names call for, the same key turns
      Pac-Man up. */
  lemma ArrowUpSteersAsIntended()
    ensures ChosenDirection(KeyNames("ArrowUp", "ArrowUp"), [], "") == "up"
  {
    LowerArrowUp();
  }

  lemma LowerArrowUp()
    ensures Lower("ArrowUp") == "arrowup"
  {
    var r := Lower("ArrowUp");
    assert r[0] == 'a' && r[5] == 'u';
    assert forall i :: 0 <= i < 7 ==> r[i] == "arrowup"[i];
  }

  /** The letter keys do steer as written: W, pressed with or without
      shift, is stored as "w", which the up test looks for. */
  lemma LetterWSteersAsWritten(key: string)
    requires key == "w" || key == "W"
    ensures ChosenDirectionAsWritten(KeyNames(key, "KeyW"), [], "") == "up"
  {
    assert Lower(key)[0] == 'w';
    assert Lower(key) == "w";
  }

  /** The direction choice with the key tests the engine's names call for:
      the first held key in the order up, down, left, right, overridden by
      the first touch control. The game runs the choice as written. */
  function ChosenDirection(keys: set<string>, touch: seq<string>, next: string): (d: string)
    ensures |touch| > 0 ==> d == touch[0]
    ensures |touch| == 0 && UpHeld(keys, touch) ==> d == "up"
    ensures (|touch| == 0 && !UpHeld(keys, touch) && !DownHeld(keys, touch)
             && !LeftHeld(keys, touch) && !RightHeld(keys, touch)) ==> d == next
  {
    var d := if UpHeld(keys, touch) then "up"
             else if DownHeld(keys, touch) then "down"
             else if LeftHeld(keys, touch) then "left"
             else if RightHeld(keys, touch) then "right"
             else next;
    if |touch| > 0 then touch[0] else d
  }

  /** The one-pixel step of updatePlayer with its per-axis boundary and
      spawn-box gates; an applied coordinate is already inside the 15 px
      margin, so the clamp never changes it. */
  function AppliedMove(p: Pos, dir: string, width: real, height: real): (r: Pos)
    ensures var n := Offset(p.x, p.y, dir, 1.0);
      && (r.x == p.x || (r.x == n.x && 15.0 <= r.x <= width - 15.0))
      && (r.y == p.y || (r.y == n.y && 15.0 <= r.y <= height - 15.0))
  {
    var n := Offset(p.x, p.y, dir, 1.0);
    var midX, midY := width / 2.0, height / 2.0;
    var enters := IsInSpawnBox(n.x, n.y, width, height);
    var insideX := Abs(n.x - midX) < 30.0;
    var insideY := Abs(n.y - midY) < 30.0;
    var canX := !(n.x < 15.0 || n.x > width - 15.0) && !(enters && !(Abs(p.x - midX) < 50.0) && insideX);
    var canY := !(n.y < 15.0 || n.y > height - 15.0) && !(enters && !(Abs(p.y - midY) < 50.0) && insideY);
    Pos(if canX then Max(15.0, Min(width - 15.0, n.x)) else p.x,
        if canY then Max(15.0, Min(height - 15.0, n.y)) else p.y)
  }

  /** A move from 50 px or more off the box centre on either axis never
      ends inside the spawn box. */
  lemma NoEntryFromAfar(p: Pos, dir: string, width: real, height: real)
    requires Abs(p.x - width / 2.0) >= 50.0 || Abs(p.y - height / 2.0) >= 50.0
    ensures var r := AppliedMove(p, dir, width, height); !IsInSpawnBox(r.x, r.y, width, height)
  {
  }

  /** The emergency escape: a player that did not move and sits within 35 px
      of the centre is pushed 5 px away from it on both axes. */
  function Escape(p: Pos, q: Pos, width: real, height: real): (r: Pos)
    ensures q != p ==> r == q
    ensures q == p ==> r == p || (Abs(r.x - p.x) == 5.0 && Abs(r.y - p.y) == 5.0
                                  && Abs(p.x - width / 2.0) < 35.0 && Abs(p.y - height / 2.0) < 35.0)
  {
    var midX, midY := width / 2.0, height / 2.0;
    if q == p && Abs(q.x - midX) < 35.0 && Abs(q.y - midY) < 35.0 then
      Pos(if q.x < midX then q.x - 5.0 else q.x + 5.0, if q.y < midY then q.y - 5.0 else q.y + 5.0)
    else q
  }

  /** Math.round(v / gridSize) * gridSize: a multiple of the grid within half
      a cell of v. */
  function Snap(v: real): (r: real)
    ensures (r / GridSize).Floor as real * GridSize == r
    ensures Abs(r - v) <= GridSize / 2.0
  {
    Round(v / GridSize) as real * GridSize
  }

  // ---------------------------------------------------------------------
  // Dots

  /** A dot position initializeGame keeps: outside the 35 px exclusion around
      the floored centre and more than 80 px from the player's start. */
  predicate KeepDot(x: real, y: real, width: real, height: real)
  {
    && !(Abs(x - MidX(width)) < 35.0 && Abs(y - MidY(height)) < 35.0)
    && DistSq(Pos(x, y), Start) > 6400.0
  }

  /** The dots of one column of the inner loop, from row `y` onward. */
  function DotColumn(x: real, y: real, width: real, height: real): seq<Pos>
    decreases (height - y).Floor
  {
    if y < height - 60.0 then
      (if KeepDot(x, y, width, height) then [Pos(x, y)] else []) + DotColumn(x, y + 20.0, width, height)
    else []
  }

  /** The dots of the nested loops, from column `x` onward. */
  function DotGrid(x: real, width: real, height: real): seq<Pos>
    decreases (width - x).Floor
  {
    if x < width - 60.0 then DotColumn(x, 60.0, width, height) + DotGrid(x + 20.0, width, height)
    else []
  }

  lemma {:induction false} DotColumnFacts(x: real, y: real, width: real, height: real)
    requires y >= 60.0
    ensures forall d :: d in DotColumn(x, y, width, height) ==>
      d.x == x && 60.0 <= d.y < height - 60.0 && KeepDot(d.x, d.y, width, height)
    decreases (height - y).Floor
  {
    if y < height - 60.0 {
      DotColumnFacts(x, y + 20.0, width, height);
    }
  }

  /** Every dot of a new level lies in the 60 px inner margin, outside the
      spawn-box exclusion and more than 80 px from the player's start. */
  lemma {:induction false} DotGridFacts(x: real, width: real, height: real)
    requires x >= 60.0
    ensures forall d :: d in DotGrid(x, width, height) ==>
      60.0 <= d.x < width - 60.0 && 60.0 <= d.y < height - 60.0 && KeepDot(d.x, d.y, width, height)
    decreases (width - x).Floor
  {
    if x < width - 60.0 {
      DotColumnFacts(x, 60.0, width, height);
      DotGridFacts(x + 20.0, width, height);
    }
  }

  // ---------------------------------------------------------------------
  // Ghost contact

  /** What the ghost-contact loop of checkCollisions can change besides the
      ghosts: the player, the lives and timers, the engine's score, running
      flag and callback log, and the number of deferred ghost repositions. */
  datatype Contact = Contact(
    player: Pos, playerDirection: string, nextDirection: string,
    lives: int, timeLeft: real, ghostStartDelay: int, ghostsActive: bool,
    pendingRespawns: nat, score: real, running: bool, events: seq<Event>)

  /** The contact state after the two pickup filters of checkCollisions
      around `c.player`: every dot within 25 px adds 10 points and a second,
      then every power pellet within 25 px adds 50 points and three seconds,
      each addition reported to the score handler. */
  function Pickup(c: Contact, dots: seq<Pos>, pellets: seq<Pos>, onScore: bool): (r: Contact)
    ensures r.score >= c.score && r.timeLeft >= c.timeLeft && |r.events| >= |c.events|
    ensures r.(timeLeft := c.timeLeft, score := c.score, events := c.events) == c
  {
    var k1 := NearCount(dots, c.player, 625.0);
    var k2 := NearCount(pellets, c.player, 625.0);
    var s1 := c.score + 10.0 * k1 as real;
    c.(timeLeft := c.timeLeft + k1 as real + 3.0 * k2 as real, score := s1 + 50.0 * k2 as real,
       events := c.events + ScoreRun(onScore, c.score, 10.0, k1) + ScoreRun(onScore, s1, 50.0, k2))
  }

  /** A contact state that matches `c0` but for the timer, the score and
      the event log, which the two pickup filters set, is `Pickup`'s. */
  lemma PickupFields(c0: Contact, c: Contact, s1: real, e1: seq<Event>, dots: seq<Pos>, pellets: seq<Pos>, onScore: bool)
    requires c.player == c0.player && c.playerDirection == c0.playerDirection && c.nextDirection == c0.nextDirection
    requires c.lives == c0.lives && c.ghostStartDelay == c0.ghostStartDelay && c.ghostsActive == c0.ghostsActive
    requires c.pendingRespawns == c0.pendingRespawns && c.running == c0.running
    requires var k1 := NearCount(dots, c0.player, 625.0);
      s1 == c0.score + 10.0 * k1 as real && e1 == c0.events + ScoreRun(onScore, c0.score, 10.0, k1)
    requires var k1 := NearCount(dots, c0.player, 625.0);
      var k2 := NearCount(pellets, c0.player, 625.0);
      && c.timeLeft == c0.timeLeft + k1 as real + 3.0 * k2 as real
      && c.score == s1 + 50.0 * k2 as real
      && c.events == e1 + ScoreRun(onScore, s1, 50.0, k2)
    ensures c == Pickup(c0, dots, pellets, onScore)
  {
  }

  /** One ghost of the contact loop: within 20 px a vulnerable ghost is eaten
      (+200, back to the centre), any other costs a life and either ends the
      game or resets the player and the ghost delay. */
  function TouchGhost(c: Contact, g: Ghost, home: Pos, level: int, onScore: bool, onEnd: bool): (Contact, Ghost)
  {
    if DistSq(c.player, Pos(g.x, g.y)) < 400.0 then
      if g.vulnerable then
        (c.(score := c.score + 200.0, events := c.events + ScoreEvent(onScore, c.score + 200.0)),
         g.(x := home.x, y := home.y, vulnerable := false))
      else if c.lives - 1 <= 0 then
        (c.(lives := c.lives - 1, running := false, events := c.events + EndEvent(onEnd, c.score, level)), g)
      else
        (c.(lives := c.lives - 1, player := Start, playerDirection := "", nextDirection := "",
            timeLeft := Max(c.timeLeft - 3.0, 10.0), pendingRespawns := c.pendingRespawns + 1,
            ghostStartDelay := 180, ghostsActive := false), g)
    else (c, g)
  }

  /** The contact loop after its first `i` ghosts: the contact state and
      the ghost list, whose ghosts from `i` on are untouched. */
  function ContactLoop(c: Contact, gs: seq<Ghost>, i: nat, home: Pos, level: int, onScore: bool, onEnd: bool): (r: (Contact, seq<Ghost>))
    requires i <= |gs|
    ensures |r.1| == |gs|
    ensures forall j :: i <= j < |gs| ==> r.1[j] == gs[j]
  {
    if i == 0 then (c, gs)
    else
      var prev := ContactLoop(c, gs, i - 1, home, level, onScore, onEnd);
      var t := TouchGhost(prev.0, gs[i - 1], home, level, onScore, onEnd);
      (t.0, prev.1[i - 1 := t.1])
  }

  /** The contact loop loses at most one life per ghost, never gains one,
      only adds to the score, never restarts a stopped game, and leaves
      every ghost where it was or at the centre. */
  lemma {:induction false} ContactLoopBounds(c: Contact, gs: seq<Ghost>, i: nat, home: Pos, level: int, onScore: bool, onEnd: bool)
    requires i <= |gs|
    ensures var r := ContactLoop(c, gs, i, home, level, onScore, onEnd);
      && c.lives - i <= r.0.lives <= c.lives
      && r.0.score >= c.score
      && (!c.running ==> !r.0.running)
      && forall j :: 0 <= j < |gs| ==>
           (r.1[j] == gs[j] || (r.1[j].x == home.x && r.1[j].y == home.y && !r.1[j].vulnerable))
  {
    if i > 0 {
      ContactLoopBounds(c, gs, i - 1, home, level, onScore, onEnd);
    }
  }

  /** With every ghost 20 px or more from the player nothing happens. */
  lemma {:induction false} ContactLoopFar(c: Contact, gs: seq<Ghost>, i: nat, home: Pos, level: int, onScore: bool, onEnd: bool)
    requires i <= |gs|
    requires forall g :: g in gs ==> DistSq(c.player, Pos(g.x, g.y)) >= 400.0
    ensures ContactLoop(c, gs, i, home, level, onScore, onEnd) == (c, gs)
  {
    if i > 0 {
      ContactLoopFar(c, gs, i - 1, home, level, onScore, onEnd);
      assert gs[i - 1] in gs;
      assert gs[i - 1 := gs[i - 1]] == gs;
    }
  }

  /** Where the deferred callback of a lost life puts ghost `i`: the first
      two back in their start corners, every other one in the bottom-right
      corner. */
  function RespawnPos(i: nat, width: real, height: real): Pos
  {
    var safe := GridSize * 6.0;
    if i == 0 then Pos(width - safe, safe)
    else if i == 1 then Pos(safe, height - safe)
    else Pos(width - safe, height - safe)
  }

  function Respawned(gs: seq<Ghost>, width: real, height: real): (r: seq<Ghost>)
    ensures |r| == |gs|
    ensures forall i :: 0 <= i < |gs| ==>
      r[i] == gs[i].(x := RespawnPos(i, width, height).x, y := RespawnPos(i, width, height).y)
  {
    seq(|gs|, i requires 0 <= i < |gs| => gs[i].(x := RespawnPos(i, width, height).x, y := RespawnPos(i, width, height).y))
  }

  /** The three ghosts that can exist are put back where they started. */
  lemma RespawnMatchesStart(gs: seq<Ghost>, width: real, height: real, i: nat)
    requires i < |gs| && i < 3
    ensures var r := Respawned(gs, width, height)[i]; Pos(r.x, r.y) == GhostStart(i, width, height)
  {
  }

  /** The player's start is already on the grid, so the snap of
      initializeGame keeps it. */
  lemma SnapStart()
    ensures Snap(Start.x) == Start.x && Snap(Start.y) == Start.y
  {
    assert Start.x / GridSize == 5.0;
    assert Round(5.0) == 5;
  }

  /** The movement half of updatePlayer: the gated one-pixel step
      followed by the emergency escape. */
  method Step(p: Pos, dir: string, width: real, height: real) returns (r: Pos)
    ensures r == Escape(p, AppliedMove(p, dir, width, height), width, height)
  {
    var q := GatedMove(p, dir, width, height);
    var x, y := q.x, q.y;
    var midX, midY := width / 2.0, height / 2.0;
    if x == p.x && y == p.y {
      if Abs(x - midX) < 35.0 && Abs(y - midY) < 35.0 {
        x := if x < midX then x - 5.0 else x + 5.0;
        y := if y < midY then y - 5.0 else y + 5.0;
      }
    }
    r := Pos(x, y);
  }

  /** The one-pixel step with its boundary and spawn-box gates. */
  method GatedMove(p: Pos, dir: string, width: real, height: real) returns (r: Pos)
    ensures r == AppliedMove(p, dir, width, height)
  {
    var newX, newY := p.x, p.y;
    if dir == "up" {
      newY := newY - 1.0;
    } else if dir == "down" {
      newY := newY + 1.0;
    } else if dir == "left" {
      newX := newX - 1.0;
    } else if dir == "right" {
      newX := newX + 1.0;
    }
    var midX, midY := width / 2.0, height / 2.0;
    var insideX := Abs(newX - midX) < 30.0;
    var insideY := Abs(newY - midY) < 30.0;
    var canMoveX, canMoveY := true, true;
    if newX < 15.0 || newX > width - 15.0 {
      canMoveX := false;
    }
    if newY < 15.0 || newY > height - 15.0 {
      canMoveY := false;
    }
    if insideX && insideY {
      if !(Abs(p.x - midX) < 50.0) && insideX {
        canMoveX := false;
      }
      if !(Abs(p.y - midY) < 50.0) && insideY {
        canMoveY := false;
      }
    }
    r := p;
    if canMoveX {
      r := r.(x := Max(15.0, Min(width - 15.0, newX)));
    }
    if canMoveY {
      r := r.(y := Max(15.0, Min(height - 15.0, newY)));
    }
  }

  /** The forEach of updateGhosts: every ghost takes its turn, the i-th
      with the i-th draw. */
  method MoveEach(gs: seq<Ghost>, player: Pos, walls: seq<Pos>, width: real, height: real, now: int, draws: seq<GhostDraw>)
    returns (moved: seq<Ghost>)
    ensures moved == MovedGhosts(gs, player, walls, width, height, now, draws)
  {
    moved := gs;
    var i := 0;
    while i < |moved|
      invariant 0 <= i <= |moved| && |moved| == |gs|
      invariant forall j :: 0 <= j < i ==> moved[j] == MoveGhost(gs[j], player, walls, width, height, now, DrawAt(draws, j))
      invariant forall j :: i <= j < |moved| ==> moved[j] == gs[j]
    {
      moved := moved[i := MoveGhost(moved[i], player, walls, width, height, now, DrawAt(draws, i))];
      i := i + 1;
    }
  }

  /** The nested loops of initializeGame that lay the dots: columns from
      60 px in steps of 20, rows likewise, skipping the centre and the
      player's start. */
  method LayDots(width: real, height: real) returns (dots: seq<Pos>)
    ensures dots == DotGrid(60.0, width, height)
  {
    dots := [];
    var x := 60.0;
    while x < width - 60.0
      invariant dots + DotGrid(x, width, height) == DotGrid(60.0, width, height)
      decreases (width - x).Floor
    {
      var column := LayColumn(x, width, height);
      assert DotGrid(x, width, height) == column + DotGrid(x + 20.0, width, height);
      Associative(dots, column, DotGrid(x + 20.0, width, height));
      dots := dots + column;
      x := x + 20.0;
    }
  }

  /** The inner loop of the dot layout: one column. */
  method LayColumn(x: real, width: real, height: real) returns (column: seq<Pos>)
    ensures column == DotColumn(x, 60.0, width, height)
  {
    column := [];
    var y := 60.0;
    while y < height - 60.0
      invariant column + DotColumn(x, y, width, height) == DotColumn(x, 60.0, width, height)
      decreases (height - y).Floor
    {
      var here := if KeepDot(x, y, width, height) then [Pos(x, y)] else [];
      assert DotColumn(x, y, width, height) == here + DotColumn(x, y + 20.0, width, height);
      Associative(column, here, DotColumn(x, y + 20.0, width, height));
      ghost var before := column;
      if !(Abs(x - MidX(width)) < 35.0 && Abs(y - MidY(height)) < 35.0) {
        if DistSq(Pos(x, y), Start) > 6400.0 {
          column := column + [Pos(x, y)];
        }
      }
      assert column == before + here;
      y := y + 20.0;
    }
  }

  /** The first loop of createWalls: the bottom and top walls, column by
      column. */
  method BuildRows(midX: int, midY: int) returns (walls: seq<Pos>)
    ensures walls == RowWalls(midX - 30, midX, midY)
  {
    walls := [];
    var x := midX - 30;
    while x <= midX + 30
      invariant walls + RowWalls(x, midX, midY) == RowWalls(midX - 30, midX, midY)
      decreases midX + 45 - x
    {
      var bottom := [Pos(x as real, (midY + 30) as real)];
      var top := if AbsInt(x - midX) > 15 then [Pos(x as real, (midY - 30) as real)] else [];
      var here := bottom + top;
      assert RowWalls(x, midX, midY) == here + RowWalls(x + 15, midX, midY);
      Associative(walls, here, RowWalls(x + 15, midX, midY));
      ghost var before := walls;
      walls := walls + [Pos(x as real, (midY + 30) as real)];
      if AbsInt(x - midX) > 15 {
        walls := walls + [Pos(x as real, (midY - 30) as real)];
      }
      assert walls == before + here;
      x := x + 15;
    }
  }

  /** The second loop of createWalls, appending the left and right walls,
      row by row, to the first loop's walls. */
  method BuildSides(rows: seq<Pos>, midX: int, midY: int) returns (walls: seq<Pos>)
    ensures walls == rows + ColumnWalls(midY - 15, midX, midY)
  {
    walls := rows;
    var y := midY - 30 + 15;
    while y <= midY + 30
      invariant walls + ColumnWalls(y, midX, midY) == rows + ColumnWalls(midY - 15, midX, midY)
      decreases midY + 45 - y
    {
      var side := [Pos((midX - 30) as real, y as real), Pos((midX + 30) as real, y as real)];
      assert ColumnWalls(y, midX, midY) == side + ColumnWalls(y + 15, midX, midY);
      Associative(walls, side, ColumnWalls(y + 15, midX, midY));
      walls := walls + side;
      y := y + 15;
    }
  }

  class Game {
    const width: real
    const height: real
    const engine: Engine
    var player: Pos
    var playerDirection: string
    var nextDirection: string
    var ghosts: seq<Ghost>
    var dots: seq<Pos>
    var powerPellets: seq<Pos>
    var walls: seq<Pos>
    var lives: int
    var vulnerableTimer: int
    var timeLeft: real
    var maxTime: real
    var ghostStartDelay: int
    var ghostsActive: bool
    /** Ghost repositions scheduled with setTimeout that have not run yet. */
    var pendingRespawns: nat

    /** The state initializeGame leaves, for the engine's current level. */
    predicate FreshLevel(dirDraws: seq<Unit>)
      reads this, engine
    {
      && maxTime == MaxTimeFor(engine.level) && timeLeft == maxTime
      && player == Start && playerDirection == "" && nextDirection == ""
      && walls == SpawnBoxWalls(Floor(width / 2.0), Floor(height / 2.0))
      && dots == DotGrid(60.0, width, height)
      && powerPellets == Corners(width, height)
      && ghosts == NewGhosts(engine.level, width, height, dirDraws)
      && ghostStartDelay == 180 && !ghostsActive
    }

    /** What the ghost-contact loop reads and writes besides the ghosts. */
    function ContactOf(): Contact
      reads this`player, this`playerDirection, this`nextDirection, this`lives, this`timeLeft,
            this`ghostStartDelay, this`ghostsActive, this`pendingRespawns, engine`score, engine`running, engine`events
    {
      Contact(player, playerDirection, nextDirection, lives, timeLeft, ghostStartDelay, ghostsActive,
              pendingRespawns, engine.score, engine.running, engine.events)
    }

    constructor (width: real, height: real, dirDraws: seq<Unit>)
      ensures this.width == width && this.height == height && fresh(engine)
      ensures FreshLevel(dirDraws)
      ensures lives == 5 && vulnerableTimer == 0 && pendingRespawns == 0
      ensures !engine.running && !engine.paused && !engine.frameRequested
      ensures engine.score == 0.0 && engine.level == 1 && engine.events == []
      ensures engine.keys == {} && engine.touchControls == []
    {
      this.width := width;
      this.height := height;
      engine := new Engine();
      player := Pos(200.0, 200.0);
      playerDirection, nextDirection := "", "";
      ghosts, dots, powerPellets, walls := [], [], [], [];
      lives, vulnerableTimer := 5, 0;
      timeLeft, maxTime := 30.0, 30.0;
      ghostStartDelay, ghostsActive := 180, false;
      pendingRespawns := 0;
      new;
      InitializeGame(dirDraws);
    }

    /** initializeGame: a new board for the engine's level. Lives, score and
        the vulnerability timer carry over. */
    method InitializeGame(dirDraws: seq<Unit>)
      modifies this`maxTime, this`timeLeft, this`player, this`playerDirection, this`nextDirection,
               this`walls, this`dots, this`powerPellets, this`ghosts, this`ghostStartDelay, this`ghostsActive
      ensures FreshLevel(dirDraws)
    {
      maxTime := MaxTimeFor(engine.level);
      timeLeft := maxTime;
      PlaceAtStart();
      playerDirection, nextDirection := "", "";
      CreateBoard(dirDraws);
      ghostStartDelay := 180;
      ghostsActive := false;
    }

    /** The middle of initializeGame: walls, dots, the four power pellets and
        the ghosts of the engine's level. */
    method CreateBoard(dirDraws: seq<Unit>)
      modifies this`walls, this`dots, this`powerPellets, this`ghosts
      ensures walls == SpawnBoxWalls(Floor(width / 2.0), Floor(height / 2.0))
      ensures dots == DotGrid(60.0, width, height)
      ensures powerPellets == Corners(width, height)
      ensures ghosts == NewGhosts(engine.level, width, height, dirDraws)
    {
      CreateWalls();
      dots := LayDots(width, height);
      powerPellets := Corners(width, height);
      CreateGhosts(dirDraws);
    }

    /** The player goes to (200, 200) and is snapped to the grid, which
        leaves it there. */
    method PlaceAtStart()
      modifies this`player
      ensures player == Start
    {
      player := Start;
      SnapStart();
      player := Pos(Snap(player.x), Snap(player.y));
    }

    /** createWalls: the outline of the ghost spawn box. */
    method CreateWalls()
      modifies this`walls
      ensures walls == SpawnBoxWalls(Floor(width / 2.0), Floor(height / 2.0))
    {
      var midX, midY := Floor(width / 2.0), Floor(height / 2.0);
      var rows := BuildRows(midX, midY);
      walls := BuildSides(rows, midX, midY);
    }

    /** createGhosts: min(level + 1, 3) ghosts in the start corners, ghost i
        turned by the i-th draw. */
    method CreateGhosts(dirDraws: seq<Unit>)
      modifies this`ghosts
      ensures ghosts == NewGhosts(engine.level, width, height, dirDraws)
    {
      var level := engine.level;
      var created: seq<Ghost> := [];
      var count := MinInt(level + 1, 3);
      var i := 0;
      while i < count
        invariant 0 <= i && (count >= 0 ==> i <= count) && (count < 0 ==> i == 0)
        invariant |created| == i
        invariant forall j :: 0 <= j < i ==> created[j] == NewGhost(j, level, width, height, Pick(dirDraws, j))
      {
        created := created + [NewGhost(i, level, width, height, Pick(dirDraws, i))];
        i := i + 1;
      }
      assert i == GhostCount(level);
      ghosts := created;
    }

    /** updateTimer: one 60th of a second less, never below zero. */
    method UpdateTimer()
      modifies this`timeLeft
      ensures timeLeft == Max(old(timeLeft) - 1.0 / 60.0, 0.0)
      ensures timeLeft >= 0.0
    {
      timeLeft := timeLeft - 1.0 / 60.0;
      if timeLeft < 0.0 {
        timeLeft := 0.0;
      }
    }

    /** updatePlayer: pick the next direction from the input, adopt it, and
        take a one-pixel step in the current direction. */
    method UpdatePlayer()
      modifies this`player, this`playerDirection, this`nextDirection
      ensures var d := ChosenDirectionAsWritten(engine.keys, engine.touchControls, old(nextDirection));
        playerDirection == (if d != "" then d else old(playerDirection))
      ensures nextDirection == ""
      ensures playerDirection == "" ==> player == old(player)
      ensures playerDirection != "" ==>
        player == Escape(old(player), AppliedMove(old(player), playerDirection, width, height), width, height)
    {
      var keys, touch := engine.keys, engine.touchControls;
      if UpHeldAsWritten(keys, touch) {
        nextDirection := "up";
      } else if DownHeldAsWritten(keys, touch) {
        nextDirection := "down";
      } else if LeftHeldAsWritten(keys, touch) {
        nextDirection := "left";
      } else if RightHeldAsWritten(keys, touch) {
        nextDirection := "right";
      }
      if |touch| > 0 {
        nextDirection := touch[0];
      }
      if nextDirection != "" {
        playerDirection := nextDirection;
        nextDirection := "";
      }
      if playerDirection != "" {
        player := Step(player, playerDirection, width, height);
      }
    }

    /** updateGhosts: while the start delay runs it only counts down; after
        that the ghosts are active and each takes its turn. */
    method UpdateGhosts(now: int, draws: seq<GhostDraw>)
      modifies this`ghostStartDelay, this`ghostsActive, this`ghosts
      ensures old(ghostStartDelay) > 0 ==>
        ghostStartDelay == old(ghostStartDelay) - 1 && ghosts == old(ghosts) && ghostsActive == old(ghostsActive)
      ensures old(ghostStartDelay) <= 0 ==>
        && ghostStartDelay == old(ghostStartDelay) && ghostsActive
        && ghosts == MovedGhosts(old(ghosts), player, walls, width, height, now, draws)
    {
      if ghostStartDelay > 0 {
        ghostStartDelay := ghostStartDelay - 1;
        return;
      }
      if !ghostsActive {
        ghostsActive := true;
      }
      ghosts := MoveEach(ghosts, player, walls, width, height, now, draws);
    }

    /** The forEach that sets every ghost's vulnerable flag. */
    method SetVulnerable(b: bool)
      modifies this`ghosts
      ensures ghosts == WithVulnerable(old(ghosts), b)
    {
      var i := 0;
      while i < |ghosts|
        invariant 0 <= i <= |ghosts| && |ghosts| == |old(ghosts)|
        invariant forall j :: 0 <= j < i ==> ghosts[j] == old(ghosts)[j].(vulnerable := b)
        invariant forall j :: i <= j < |ghosts| ==> ghosts[j] == old(ghosts)[j]
      {
        ghosts := ghosts[i := ghosts[i].(vulnerable := b)];
        i := i + 1;
      }
    }

    /** updateVulnerableTimer: a positive timer drops by one and clears every
        ghost's vulnerability when it reaches zero; zero stays zero. */
    method UpdateVulnerableTimer()
      modifies this`vulnerableTimer, this`ghosts
      ensures vulnerableTimer == if old(vulnerableTimer) > 0 then old(vulnerableTimer) - 1 else old(vulnerableTimer)
      ensures ghosts == if old(vulnerableTimer) == 1 then WithVulnerable(old(ghosts), false) else old(ghosts)
    {
      if vulnerableTimer > 0 {
        vulnerableTimer := vulnerableTimer - 1;
        if vulnerableTimer == 0 {
          SetVulnerable(false);
        }
      }
    }

    /** The dot filter of checkCollisions: every dot closer than 25 px goes,
        each one for 10 points and one more second. */
    method CollectDots()
      modifies this`dots, this`timeLeft, engine`score, engine`events
      ensures dots == FarFrom(old(dots), player, 625.0)
      ensures var k := NearCount(old(dots), player, 625.0);
        && engine.score == old(engine.score) + 10.0 * k as real
        && timeLeft == old(timeLeft) + k as real
        && engine.events == old(engine.events) + ScoreRun(engine.onScoreChange, old(engine.score), 10.0, k)
      ensures |dots| <= old(|dots|) && engine.score >= old(engine.score)
    {
      var ps, p := dots, player;
      ghost var s0, log0, t0 := engine.score, engine.events, timeLeft;
      var kept: seq<Pos> := [];
      ghost var k: nat := 0;
      var i := 0;
      while i < |ps|
        invariant 0 <= i <= |ps|
        invariant kept == FarFrom(ps[..i], p, 625.0) && k == NearCount(ps[..i], p, 625.0)
        invariant engine.score == s0 + 10.0 * k as real && timeLeft == t0 + k as real
        invariant engine.events == log0 + ScoreRun(engine.onScoreChange, s0, 10.0, k)
      {
        var dot := ps[i];
        FilterStep(ps, i, p, 625.0);
        if DistSq(p, dot) < 625.0 {
          engine.Award(10.0, s0, log0, k);
          timeLeft := timeLeft + 1.0;
          k := k + 1;
        } else {
          kept := kept + [dot];
        }
        i := i + 1;
      }
      assert ps[..i] == ps;
      dots := kept;
    }

    /** The power-pellet filter: every pellet closer than 25 px goes, each
        one for 50 points, three more seconds, a 600-frame vulnerability
        timer and every ghost vulnerable. */
    method CollectPellets()
      modifies this`powerPellets, this`timeLeft, this`vulnerableTimer, this`ghosts, engine`score, engine`events
      ensures powerPellets == FarFrom(old(powerPellets), player, 625.0)
      ensures var k := NearCount(old(powerPellets), player, 625.0);
        && engine.score == old(engine.score) + 50.0 * k as real
        && timeLeft == old(timeLeft) + 3.0 * k as real
        && engine.events == old(engine.events) + ScoreRun(engine.onScoreChange, old(engine.score), 50.0, k)
        && vulnerableTimer == (if k > 0 then 600 else old(vulnerableTimer))
        && ghosts == FlaggedIf(old(ghosts), k)
      ensures |powerPellets| <= old(|powerPellets|) && engine.score >= old(engine.score)
      ensures vulnerableTimer == old(vulnerableTimer) || vulnerableTimer == 600
    {
      var ps, p := powerPellets, player;
      ghost var s0, log0, t0, v0, gs0 := engine.score, engine.events, timeLeft, vulnerableTimer, ghosts;
      ghost var flagged := WithVulnerable(gs0, true);
      var kept: seq<Pos> := [];
      ghost var k: nat := 0;
      var i := 0;
      while i < |ps|
        invariant 0 <= i <= |ps|
        invariant kept == FarFrom(ps[..i], p, 625.0) && k == NearCount(ps[..i], p, 625.0)
        invariant engine.score == s0 + 50.0 * k as real && timeLeft == t0 + 3.0 * k as real
        invariant engine.events == log0 + ScoreRun(engine.onScoreChange, s0, 50.0, k)
        invariant k == 0 ==> vulnerableTimer == v0 && ghosts == gs0
        invariant k > 0 ==> vulnerableTimer == 600 && ghosts == flagged
      {
        var pellet := ps[i];
        FilterStep(ps, i, p, 625.0);
        if DistSq(p, pellet) < 625.0 {
          engine.Award(50.0, s0, log0, k);
          WithVulnerableTwice(gs0, true);
          EatPellet();
          k := k + 1;
        } else {
          kept := kept + [pellet];
        }
        i := i + 1;
      }
      assert ps[..i] == ps;
      powerPellets := kept;
    }

    /** The effects of one eaten power pellet besides its 50 points. */
    method EatPellet()
      modifies this`timeLeft, this`vulnerableTimer, this`ghosts
      ensures vulnerableTimer == 600 && timeLeft == old(timeLeft) + 3.0
      ensures ghosts == WithVulnerable(old(ghosts), true)
    {
      vulnerableTimer := 600;
      timeLeft := timeLeft + 3.0;
      SetVulnerable(true);
    }

    /** One ghost of the contact forEach. */
    method MeetGhost(i: nat, home: Pos)
      requires i < |ghosts|
      modifies this`player, this`playerDirection, this`nextDirection, this`lives, this`timeLeft,
               this`ghostStartDelay, this`ghostsActive, this`pendingRespawns, this`ghosts,
               engine`score, engine`events, engine`running
      ensures var t := TouchGhost(old(ContactOf()), old(ghosts[i]), home, engine.level, engine.onScoreChange, engine.onGameEnd);
        ContactOf() == t.0 && ghosts == old(ghosts)[i := t.1]
    {
      var g := ghosts[i];
      if DistSq(player, Pos(g.x, g.y)) < 400.0 {
        if g.vulnerable {
          engine.UpdateScore(engine.score + 200.0);
          ghosts := ghosts[i := g.(x := home.x, y := home.y, vulnerable := false)];
        } else {
          lives := lives - 1;
          if lives <= 0 {
            engine.EndGame();
          } else {
            player := Start;
            playerDirection := "";
            nextDirection := "";
            timeLeft := Max(timeLeft - 3.0, 10.0);
            pendingRespawns := pendingRespawns + 1;
            ghostStartDelay := 180;
            ghostsActive := false;
          }
        }
      }
    }

    /** The ghost-contact forEach of checkCollisions, run only while the
        ghosts are active. */
    method TouchGhosts()
      modifies this`player, this`playerDirection, this`nextDirection, this`lives, this`timeLeft,
               this`ghostStartDelay, this`ghostsActive, this`pendingRespawns, this`ghosts,
               engine`score, engine`events, engine`running
      ensures old(ghostsActive) ==>
        (ContactOf(), ghosts) == ContactLoop(old(ContactOf()), old(ghosts), |old(ghosts)|, GhostHome(width, height),
                                             engine.level, engine.onScoreChange, engine.onGameEnd)
      ensures !old(ghostsActive) ==> ContactOf() == old(ContactOf()) && ghosts == old(ghosts)
      ensures old(lives) - |old(ghosts)| <= lives <= old(lives) && engine.score >= old(engine.score)
    {
      if !ghostsActive {
        return;
      }
      ghost var c0 := ContactOf();
      ghost var gs := ghosts;
      ghost var level, onScore, onEnd := engine.level, engine.onScoreChange, engine.onGameEnd;
      var home := GhostHome(width, height);
      var i := 0;
      while i < |ghosts|
        invariant 0 <= i <= |ghosts| && |ghosts| == |gs|
        invariant (ContactOf(), ghosts) == ContactLoop(c0, gs, i, home, level, onScore, onEnd)
      {
        MeetGhost(i, home);
        i := i + 1;
      }
      ContactLoopBounds(c0, gs, |gs|, home, level, onScore, onEnd);
    }

    /** The two pickup filters of checkCollisions: the dots, then the power
        pellets, both around the same player position. */
    method Pickups()
      modifies this`dots, this`powerPellets, this`timeLeft, this`vulnerableTimer, this`ghosts, engine`score, engine`events
      ensures dots == FarFrom(old(dots), player, 625.0)
      ensures powerPellets == FarFrom(old(powerPellets), player, 625.0)
      ensures var k2 := NearCount(old(powerPellets), player, 625.0);
        && vulnerableTimer == (if k2 > 0 then 600 else old(vulnerableTimer))
        && ghosts == FlaggedIf(old(ghosts), k2)
      ensures ContactOf() == Pickup(old(ContactOf()), old(dots), old(powerPellets), engine.onScoreChange)
    {
      ghost var c0 := ContactOf();
      CollectDots();
      ghost var s1, e1 := engine.score, engine.events;
      CollectPellets();
      PickupFields(c0, ContactOf(), s1, e1, old(dots), old(powerPellets), engine.onScoreChange);
    }

    /** checkCollisions: dots, then power pellets, then ghost contact while
        the ghosts are active. `picked` and `flagged` name the contact state
        and the ghosts between the pickups and the contact loop. */
    method CheckCollisions() returns (ghost picked: Contact, ghost flagged: seq<Ghost>)
      modifies this`dots, this`powerPellets, this`timeLeft, this`vulnerableTimer, this`ghosts,
               this`player, this`playerDirection, this`nextDirection, this`lives,
               this`ghostStartDelay, this`ghostsActive, this`pendingRespawns,
               engine`score, engine`events, engine`running
      ensures old(lives) - |old(ghosts)| <= lives <= old(lives)
      ensures engine.score >= old(engine.score)
      ensures vulnerableTimer == old(vulnerableTimer) || vulnerableTimer == 600
      ensures dots == FarFrom(old(dots), old(player), 625.0)
      ensures powerPellets == FarFrom(old(powerPellets), old(player), 625.0)
      ensures var k2 := NearCount(old(powerPellets), old(player), 625.0);
        && picked == Pickup(old(ContactOf()), old(dots), old(powerPellets), engine.onScoreChange)
        && flagged == FlaggedIf(old(ghosts), k2)
        && vulnerableTimer == (if k2 > 0 then 600 else old(vulnerableTimer))
      ensures old(ghostsActive) ==>
        (ContactOf(), ghosts) == ContactLoop(picked, flagged, |flagged|, GhostHome(width, height),
                                             engine.level, engine.onScoreChange, engine.onGameEnd)
      ensures !old(ghostsActive) ==> ContactOf() == picked && ghosts == flagged
    {
      Pickups();
      picked, flagged := ContactOf(), ghosts;
      TouchGhosts();
    }

    /** The deferred callback a lost life schedules: every ghost back to a
        corner. */
    method RespawnGhosts()
      requires pendingRespawns > 0
      modifies this`ghosts, this`pendingRespawns
      ensures pendingRespawns == old(pendingRespawns) - 1
      ensures ghosts == Respawned(old(ghosts), width, height)
    {
      pendingRespawns := pendingRespawns - 1;
      var i := 0;
      while i < |ghosts|
        invariant 0 <= i <= |ghosts| && |ghosts| == |old(ghosts)|
        invariant pendingRespawns == old(pendingRespawns) - 1
        invariant forall j :: 0 <= j < i ==>
          ghosts[j] == old(ghosts)[j].(x := RespawnPos(j, width, height).x, y := RespawnPos(j, width, height).y)
        invariant forall j :: i <= j < |ghosts| ==> ghosts[j] == old(ghosts)[j]
      {
        var p := RespawnPos(i, width, height);
        ghosts := ghosts[i := ghosts[i].(x := p.x, y := p.y)];
        i := i + 1;
      }
    }

    /** The end-of-frame rules of update: a cleared board scores
        1000 + 10 * timeLeft and opens the next level; otherwise an expired
        timer costs a life and either ends the game or restarts the level. */
    method Settle(dirDraws: seq<Unit>)
      modifies this, engine`score, engine`events, engine`level, engine`running
      ensures old(|dots|) == 0 ==>
        && engine.score == old(engine.score) + 1000.0 + old(timeLeft) * 10.0
        && engine.level == old(engine.level) + 1
        && engine.events == old(engine.events) + ScoreEvent(engine.onScoreChange, engine.score)
                                               + LevelEvent(engine.onLevelChange, engine.level)
        && FreshLevel(dirDraws) && lives == old(lives) && engine.running == old(engine.running)
      ensures old(|dots|) != 0 && old(timeLeft) <= 0.0 ==>
        && lives == old(lives) - 1 && engine.score == old(engine.score) && engine.level == old(engine.level)
        && (lives <= 0 ==> !engine.running && engine.events == old(engine.events)
                                               + EndEvent(engine.onGameEnd, engine.score, engine.level)
                           && dots == old(dots) && timeLeft == old(timeLeft) && ghosts == old(ghosts))
        && (lives > 0 ==> FreshLevel(dirDraws) && engine.running == old(engine.running)
                          && engine.events == old(engine.events))
      ensures old(|dots|) != 0 && old(timeLeft) > 0.0 ==> unchanged(this) && unchanged(engine)
      ensures vulnerableTimer == old(vulnerableTimer) && pendingRespawns == old(pendingRespawns)
    {
      if |dots| == 0 {
        engine.UpdateScore(engine.score + 1000.0 + timeLeft * 10.0);
        engine.UpdateLevel(engine.level + 1);
        InitializeGame(dirDraws);
      }
      if timeLeft <= 0.0 {
        lives := lives - 1;
        if lives <= 0 {
          engine.EndGame();
        } else {
          InitializeGame(dirDraws);
        }
      }
    }

    /** update: nothing once the game is stopped; otherwise the timer, the
        player, the ghosts, the vulnerability timer, the collisions and the
        end-of-frame rules, in that order. */
    method Update(now: int, draws: seq<GhostDraw>, dirDraws: seq<Unit>)
      modifies this, engine`score, engine`events, engine`level, engine`running
      ensures !old(engine.running) ==> unchanged(this) && unchanged(engine)
      ensures lives <= old(lives)
    {
      if !engine.running {
        return;
      }
      Animate(now, draws);
      ghost var picked, flagged := CheckCollisions();
      Settle(dirDraws);
    }

    /** The movement half of update: the timer, the player, the ghosts and
        the vulnerability timer, in that order. None of them touches the
        lives, the score or the board. */
    method Animate(now: int, draws: seq<GhostDraw>)
      modifies this`timeLeft, this`player, this`playerDirection, this`nextDirection, this`ghosts,
               this`ghostStartDelay, this`ghostsActive, this`vulnerableTimer
      ensures timeLeft == Max(old(timeLeft) - 1.0 / 60.0, 0.0)
    {
      UpdateTimer();
      UpdatePlayer();
      UpdateGhosts(now, draws);
      UpdateVulnerableTimer();
    }

    /** One animation frame of the engine's loop for this game. */
    method Frame(now: int, draws: seq<GhostDraw>, dirDraws: seq<Unit>)
      modifies this, engine`score, engine`events, engine`level, engine`running, engine`frameRequested
      ensures engine.frameRequested == old(engine.running)
      ensures !(old(engine.running) && !old(engine.paused)) ==>
        unchanged(this) && engine.running == old(engine.running) && engine.score == old(engine.score)
        && engine.level == old(engine.level) && engine.events == old(engine.events)
    {
      var wasRunning := engine.running;
      if UpdatePhase in FramePhases(engine.running, engine.paused) {
        Update(now, draws, dirDraws);
      }
      engine.ScheduleNext(wasRunning);
    }

    /** The touch-control override: records the action and sets the next
        direction at once, without the engine's alias keys. */
    method HandleMobilePress(action: string)
      modifies this`nextDirection, engine`touchControls
      ensures engine.touchControls == SetAdd(old(engine.touchControls), action)
      ensures nextDirection == if action in Directions then action else old(nextDirection)
    {
      engine.touchControls := SetAdd(engine.touchControls, action);
      if action == "up" || action == "down" || action == "left" || action == "right" {
        nextDirection := action;
      }
    }

    /** The release override: forgets the action only. */
    method HandleMobileRelease(action: string)
      modifies engine`touchControls
      ensures engine.touchControls == SetDelete(old(engine.touchControls), action)
    {
      engine.touchControls := SetDelete(engine.touchControls, action);
    }

    /** setDirection: the joystick's next direction, taken as given. */
    method SetDirection(direction: string)
      modifies this`nextDirection
      ensures nextDirection == direction
    {
      nextDirection := direction;
    }

    /** setPlayerDirection: a release (None) changes nothing; a direction
        becomes both the current and the next one and snaps the player to
        the grid. */
    method SetPlayerDirection(direction: Option<string>)
      modifies this`player, this`playerDirection, this`nextDirection
      ensures direction.None? ==> player == old(player) && playerDirection == old(playerDirection)
                                  && nextDirection == old(nextDirection)
      ensures direction.Some? ==> playerDirection == direction.value && nextDirection == direction.value
                                  && player == Pos(Snap(old(player).x), Snap(old(player).y))
    {
      if direction.None? {
        return;
      }
      playerDirection := direction.value;
      nextDirection := direction.value;
      player := Pos(Snap(player.x), Snap(player.y));
    }
  }
}
