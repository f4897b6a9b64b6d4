/** Frogger ("DeFi Runner"): the player hops 50 px at a time, with a
    cooldown between hops, across road lanes of cars and trucks and water
    lanes of logs and turtles, and fills five goal zones at the top. Lanes
    and their objects are values that each frame replaces; the game state
    is a class whose methods update it the way the source does. */
module Frogger {
  import opened Common
  import opened GameEngine

  const LaneHeight: real := 50.0
  const PlayerSize: real := 30.0
  /** Frames a hop blocks the next one. */
  const MoveCooldown: int := 35
  const MaxLives: int := 8

  datatype ObjectKind = Car | Truck | Log | Turtle

  /** A car, truck, log or turtle; its colour is not modelled. */
  datatype MovingObject = MovingObject(x: real, y: real, width: real, height: real, speed: real, kind: ObjectKind)

  datatype Terrain = Road | Water | Safe

  /** A horizontal lane; `direction` is +1 (rightward) or -1. */
  datatype Lane = Lane(y: real, objects: seq<MovingObject>, terrain: Terrain, direction: int)

  /** The Math.random() results one object consumes: its kind, its speed and
      its offset. */
  datatype ObjectDraw = ObjectDraw(kind: Unit, speed: Unit, offset: Unit)

  /** The draws of one lane: its object count and its objects' draws. */
  datatype LaneDraw = LaneDraw(count: Unit, objects: seq<ObjectDraw>)

  function ObjectDrawAt(d: LaneDraw, j: int): ObjectDraw
  {
    if 0 <= j < |d.objects| then d.objects[j] else ObjectDraw(0.0, 0.0, 0.0)
  }

  function LaneDrawAt(ds: seq<LaneDraw>, i: int): LaneDraw
  {
    if 0 <= i < |ds| then ds[i] else LaneDraw(0.0, [])
  }

  // ---------------------------------------------------------------------
  // Level layout
  // ---------------------------------------------------------------------

  /** The terrain of lane i of n: the first and last lanes are safe, lanes
      2 to 5 are road, lanes 7 to 10 are water, the rest are safe. */
  function TerrainOf(i: int, n: int): (t: Terrain)
    ensures t == Road <==> 2 <= i <= 5 && i != n - 1
    ensures t == Water <==> 7 <= i <= 10 && i != n - 1
    ensures i == 0 || i == n - 1 ==> t == Safe
  {
    if i == 0 || i == n - 1 then Safe
    else if 2 <= i <= 5 then Road
    else if 7 <= i <= 10 then Water
    else Safe
  }

  /** Even lanes run rightward and odd lanes leftward. */
  function Direction(i: int): (d: int)
    ensures d == 1 || d == -1
  {
    if i % 2 == 0 then 1 else -1
  }

  /** Neighbouring lanes run in opposite directions. */
  lemma AlternatingLanes(i: nat)
    ensures Direction(i + 1) == -Direction(i)
    ensures Direction(i) == 1 <==> i % 2 == 0
  {
  }

  /** 2 + Math.floor(Math.random() * 2). */
  function ObjectCount(u: Unit): (k: int)
    ensures 2 <= k <= 3
  {
    2 + IndexOf(u, 2)
  }

  /** A positive base speed times a positive factor, carrying the sign of
      the lane direction. */
  function Directed(base: real, factor: real, direction: int): (s: real)
    requires base > 0.0 && factor > 0.0
    ensures direction > 0 ==> s > 0.0
    ensures direction < 0 ==> s < 0.0
    ensures direction == 0 ==> s == 0.0
  {
    var speed := base * factor;
    assert speed > 0.0;
    if direction > 0 then
      assert speed * direction as real >= speed;
      speed * direction as real
    else if direction < 0 then
      assert speed * direction as real <= -speed;
      speed * direction as real
    else speed * direction as real
  }

  /** The j-th road object of a lane: a truck with chance 0.3 (width 80),
      otherwise a car (width 50); base speed in [0.2, 0.7) scaled by
      1 + level * 0.02; placed at j * spacing plus up to 150 px. */
  function RoadObject(j: int, spacing: real, y: real, direction: int, level: int, d: ObjectDraw): (o: MovingObject)
    requires level > -50
    ensures o.y == y && o.height == 35.0
    ensures (o.kind == Truck && o.width == 80.0) || (o.kind == Car && o.width == 50.0)
    ensures o.kind == Truck <==> d.kind < 0.3
    ensures (direction > 0 ==> o.speed > 0.0) && (direction < 0 ==> o.speed < 0.0)
    ensures j as real * spacing <= o.x < j as real * spacing + 150.0
  {
    var truck := d.kind < 0.3;
    var speed := Directed(0.2 + d.speed * 0.5, 1.0 + level as real * 0.02, direction);
    MovingObject(j as real * spacing + d.offset * 150.0, y, if truck then 80.0 else 50.0, 35.0, speed,
                 if truck then Truck else Car)
  }

  /** The j-th water object of a lane: a log with chance 0.8 (width 140),
      otherwise a turtle (width 100); base speed in [0.2, 0.6) scaled by
      1 + level * 0.01; placed at j * spacing plus up to 100 px. */
  function WaterObject(j: int, spacing: real, y: real, direction: int, level: int, d: ObjectDraw): (o: MovingObject)
    requires level > -100
    ensures o.y == y && o.height == 30.0
    ensures (o.kind == Log && o.width == 140.0) || (o.kind == Turtle && o.width == 100.0)
    ensures o.kind == Log <==> d.kind < 0.8
    ensures (direction > 0 ==> o.speed > 0.0) && (direction < 0 ==> o.speed < 0.0)
    ensures j as real * spacing <= o.x < j as real * spacing + 100.0
  {
    var log := d.kind < 0.8;
    var speed := Directed(0.2 + d.speed * 0.4, 1.0 + level as real * 0.01, direction);
    MovingObject(j as real * spacing + d.offset * 100.0, y, if log then 140.0 else 100.0, 30.0, speed,
                 if log then Log else Turtle)
  }

  /** The objects addRoadObjects or addWaterObjects push onto a lane; a
      safe lane gets none. */
  function LaneObjects(terrain: Terrain, y: real, direction: int, level: int, width: real, d: LaneDraw): (os: seq<MovingObject>)
    requires level > -50
  {
    match terrain
    case Safe => []
    case Road =>
      var n := ObjectCount(d.count);
      seq(n, j => RoadObject(j, width / n as real, y, direction, level, ObjectDrawAt(d, j)))
    case Water =>
      var n := ObjectCount(d.count);
      seq(n, j => WaterObject(j, width / n as real, y, direction, level, ObjectDrawAt(d, j)))
  }

  /** Lane i of n, with its objects. */
  function NewLane(i: int, n: int, width: real, height: real, level: int, d: LaneDraw): Lane
    requires level > -50
  {
    var y := height - LaneHeight * (i + 1) as real;
    var t := TerrainOf(i, n);
    Lane(y, LaneObjects(t, y, Direction(i), level, width, d), t, Direction(i))
  }

  /** Math.floor(height / 50) lanes; a negative count builds none. */
  function LaneCount(height: real): nat
  {
    var k := Floor(height / LaneHeight);
    if k < 0 then 0 else k
  }

  /** The lanes initializeLevel builds, bottom lane first. */
  function Lanes(width: real, height: real, level: int, draws: seq<LaneDraw>): (ls: seq<Lane>)
    requires level > -50
    ensures |ls| == LaneCount(height)
  {
    var n := LaneCount(height);
    seq(n, i => NewLane(i, n, width, height, level, LaneDrawAt(draws, i)))
  }

  /** The five goal zones along the top. */
  function Goals(): (zs: seq<Pos>)
    ensures |zs| == 5
  {
    seq(5, i => Pos(50.0 + 140.0 * i as real, LaneHeight / 2.0))
  }

  /** Where a level starts the player. */
  function Home(width: real, height: real): Pos
  {
    Pos(width / 2.0, height - 25.0)
  }

  /** Where playerDied puts the player, whatever the canvas size. */
  const Respawn: Pos := Pos(400.0, 550.0)

  // ---------------------------------------------------------------------
  // The shape every lane keeps
  // ---------------------------------------------------------------------

  predicate Heading(speed: real, direction: int)
  {
    if direction > 0 then speed > 0.0 else speed < 0.0
  }

  /** An object belongs to its lane: same row, the lane's heading, and the
      size of its kind. */
  predicate Belted(o: MovingObject, l: Lane)
  {
    o.y == l.y && Heading(o.speed, l.direction)
    && (l.terrain == Road ==> o.height == 35.0 && ((o.kind == Car && o.width == 50.0) || (o.kind == Truck && o.width == 80.0)))
    && (l.terrain == Water ==> o.height == 30.0 && ((o.kind == Log && o.width == 140.0) || (o.kind == Turtle && o.width == 100.0)))
  }

  /** Lane i of n as initializeLevel lays it out, whatever its objects'
      positions. */
  predicate LaneOk(l: Lane, i: int, n: int, height: real)
  {
    l.y == height - LaneHeight * (i + 1) as real
    && l.terrain == TerrainOf(i, n) && l.direction == Direction(i)
    && (l.terrain == Safe ==> l.objects == [])
    && (l.terrain != Safe ==> 2 <= |l.objects| <= 3)
    && forall j :: 0 <= j < |l.objects| ==> Belted(l.objects[j], l)
  }

  predicate LanesOk(ls: seq<Lane>, height: real)
  {
    |ls| == LaneCount(height)
    && forall i :: 0 <= i < |ls| ==> LaneOk(ls[i], i, |ls|, height)
  }

  lemma NewLaneOk(i: int, n: int, width: real, height: real, level: int, d: LaneDraw)
    requires level > -50
    ensures LaneOk(NewLane(i, n, width, height, level, d), i, n, height)
  {
    var l := NewLane(i, n, width, height, level, d);
    forall j | 0 <= j < |l.objects|
      ensures Belted(l.objects[j], l)
    {
    }
  }

  /** A freshly built level has the lane layout. */
  lemma LanesShape(width: real, height: real, level: int, draws: seq<LaneDraw>)
    requires level > -50
    ensures LanesOk(Lanes(width, height, level, draws), height)
  {
    var ls := Lanes(width, height, level, draws);
    forall i | 0 <= i < |ls|
      ensures LaneOk(ls[i], i, |ls|, height)
    {
      NewLaneOk(i, |ls|, width, height, level, LaneDrawAt(draws, i));
    }
  }

  // ---------------------------------------------------------------------
  // Belts
  // ---------------------------------------------------------------------

  /** One frame of one object: it moves by its speed, and a rightward
      object more than its width past the right edge comes back at
      -width, a leftward one more than its width past the left edge at
      the right edge. */
  function Wrapped(o: MovingObject, width: real): (r: MovingObject)
    ensures r == o.(x := r.x)
    ensures -o.width <= o.x + o.speed <= width + o.width ==> r.x == o.x + o.speed
    ensures o.speed > 0.0 && width >= -2.0 * o.width ==> r.x <= width + o.width
    ensures o.speed < 0.0 && width >= -o.width ==> r.x >= -o.width
  {
    var x := o.x + o.speed;
    o.(x := if o.speed > 0.0 && x > width + o.width then -o.width
            else if o.speed < 0.0 && x < -o.width then width
            else x)
  }

  function WrappedAll(os: seq<MovingObject>, width: real): seq<MovingObject>
  {
    seq(|os|, j requires 0 <= j < |os| => Wrapped(os[j], width))
  }

  function DriftLane(l: Lane, width: real): Lane
  {
    l.(objects := WrappedAll(l.objects, width))
  }

  /** The lanes after the movement half of updateObjects. */
  function Drifted(ls: seq<Lane>, width: real): seq<Lane>
  {
    seq(|ls|, i requires 0 <= i < |ls| => DriftLane(ls[i], width))
  }

  /** Moving the belts keeps every lane's layout and every object's row,
      heading and size. */
  lemma DriftKeepsShape(ls: seq<Lane>, width: real, height: real)
    requires LanesOk(ls, height)
    ensures LanesOk(Drifted(ls, width), height)
  {
    var ds := Drifted(ls, width);
    forall i | 0 <= i < |ds|
      ensures LaneOk(ds[i], i, |ds|, height)
    {
      var l, d := ls[i], ds[i];
      assert LaneOk(l, i, |ls|, height);
      forall j | 0 <= j < |d.objects|
        ensures Belted(d.objects[j], d)
      {
        assert Belted(l.objects[j], l);
      }
    }
  }

  /** The speed-scaling loop of nextLevel. */
  function ScaledLane(l: Lane, factor: real): Lane
  {
    l.(objects := seq(|l.objects|, j requires 0 <= j < |l.objects| => l.objects[j].(speed := l.objects[j].speed * factor)))
  }

  function Scaled(ls: seq<Lane>, factor: real): (r: seq<Lane>)
    ensures |r| == |ls|
  {
    seq(|ls|, i requires 0 <= i < |ls| => ScaledLane(ls[i], factor))
  }

  /** The nested forEach of updateObjects, over a copy of the lanes. */
  method DriftAll(ls: seq<Lane>, width: real) returns (r: seq<Lane>)
    ensures r == Drifted(ls, width)
  {
    r := [];
    var i := 0;
    while i < |ls|
      invariant 0 <= i <= |ls|
      invariant |r| == i
      invariant forall k :: 0 <= k < i ==> r[k] == DriftLane(ls[k], width)
    {
      var os := ls[i].objects;
      var moved: seq<MovingObject> := [];
      var j := 0;
      while j < |os|
        invariant 0 <= j <= |os|
        invariant |moved| == j
        invariant forall m :: 0 <= m < j ==> moved[m] == Wrapped(os[m], width)
      {
        var o := os[j];
        var x := o.x + o.speed;
        if o.speed > 0.0 && x > width + o.width {
          x := -o.width;
        } else if o.speed < 0.0 && x < -o.width {
          x := width;
        }
        moved := moved + [o.(x := x)];
        j := j + 1;
      }
      assert moved == WrappedAll(os, width);
      r := r + [ls[i].(objects := moved)];
      i := i + 1;
    }
  }

  /** The nested forEach of nextLevel that multiplies every speed. */
  method ScaleAll(ls: seq<Lane>, factor: real) returns (r: seq<Lane>)
    ensures r == Scaled(ls, factor)
  {
    r := [];
    var i := 0;
    while i < |ls|
      invariant 0 <= i <= |ls|
      invariant |r| == i
      invariant forall k :: 0 <= k < i ==> r[k] == ScaledLane(ls[k], factor)
    {
      var os := ls[i].objects;
      var faster: seq<MovingObject> := [];
      var j := 0;
      while j < |os|
        invariant 0 <= j <= |os|
        invariant |faster| == j
        invariant forall m :: 0 <= m < j ==> faster[m] == os[m].(speed := os[m].speed * factor)
      {
        faster := faster + [os[j].(speed := os[j].speed * factor)];
        j := j + 1;
      }
      ghost var scaled := ScaledLane(ls[i], factor).objects;
      assert |scaled| == |faster|;
      forall m | 0 <= m < |os|
        ensures faster[m] == scaled[m]
      {
      }
      assert faster == scaled;
      r := r + [ls[i].(objects := faster)];
      i := i + 1;
    }
  }

  // ---------------------------------------------------------------------
  // Lookups (Array.prototype.find)
  // ---------------------------------------------------------------------

  /** The player's y is within half a lane of the lane's row. */
  predicate InBand(y: real, l: Lane)
  {
    l.y - LaneHeight / 2.0 <= y <= l.y + LaneHeight / 2.0
  }

  /** The index of the first lane at or after `from` whose band holds y,
      or -1. */
  function FirstLane(ls: seq<Lane>, y: real, from: nat): (k: int)
    decreases |ls| - from
    ensures k == -1 || from <= k < |ls|
    ensures k >= 0 ==> InBand(y, ls[k])
  {
    if from >= |ls| then -1
    else if InBand(y, ls[from]) then from
    else FirstLane(ls, y, from + 1)
  }

  /** FirstLane is Array.prototype.find: no lane before the one it returns
      holds y, and it returns -1 exactly when no lane does. */
  lemma {:induction false} FirstLaneFinds(ls: seq<Lane>, y: real, from: nat)
    decreases |ls| - from
    ensures var k := FirstLane(ls, y, from);
      (k >= 0 ==> forall m :: from <= m < k ==> !InBand(y, ls[m]))
      && (k == -1 <==> forall m :: from <= m < |ls| ==> !InBand(y, ls[m]))
  {
    if from < |ls| && !InBand(y, ls[from]) {
      FirstLaneFinds(ls, y, from + 1);
    }
  }

  /** The player's box and an object's box overlap. */
  predicate Overlaps(p: Pos, o: MovingObject)
  {
    p.x + PlayerSize > o.x && p.x < o.x + o.width && p.y + PlayerSize > o.y && p.y < o.y + o.height
  }

  /** The index of the first object at or after `from` that overlaps the
      player, or -1. */
  function FirstOverlap(os: seq<MovingObject>, p: Pos, from: nat): (j: int)
    decreases |os| - from
    ensures j == -1 || from <= j < |os|
    ensures j >= 0 ==> Overlaps(p, os[j])
  {
    if from >= |os| then -1
    else if Overlaps(p, os[from]) then from
    else FirstOverlap(os, p, from + 1)
  }

  /** FirstOverlap is Array.prototype.find on the objects. */
  lemma {:induction false} FirstOverlapFinds(os: seq<MovingObject>, p: Pos, from: nat)
    decreases |os| - from
    ensures var j := FirstOverlap(os, p, from);
      (j >= 0 ==> forall m :: from <= m < j ==> !Overlaps(p, os[m]))
      && (j == -1 <==> forall m :: from <= m < |os| ==> !Overlaps(p, os[m]))
  {
    if from < |os| && !Overlaps(p, os[from]) {
      FirstOverlapFinds(os, p, from + 1);
    }
  }

  /** A player standing on a lane's row finds that lane: the bands of
      earlier (lower) lanes lie entirely below it. */
  lemma RowLookup(ls: seq<Lane>, height: real, i: int)
    requires LanesOk(ls, height)
    requires 0 <= i < |ls|
    ensures FirstLane(ls, ls[i].y, 0) == i
  {
    var y := ls[i].y;
    assert LaneOk(ls[i], i, |ls|, height);
    forall m | 0 <= m < i
      ensures !InBand(y, ls[m])
    {
      assert LaneOk(ls[m], m, |ls|, height);
      assert ls[m].y - y == LaneHeight * (i - m) as real;
    }
    FirstLaneFinds(ls, y, 0);
    assert InBand(y, ls[i]);
  }

  /** The start position is in the bottom lane, which is safe and empty, so
      standing there neither drowns nor collides. */
  lemma HomeIsSafe(ls: seq<Lane>, width: real, height: real)
    requires LanesOk(ls, height)
    requires |ls| >= 1
    ensures FirstLane(ls, Home(width, height).y, 0) == 0
    ensures ls[0].terrain == Safe && ls[0].objects == []
  {
    assert LaneOk(ls[0], 0, |ls|, height);
    assert InBand(Home(width, height).y, ls[0]);
  }

  // ---------------------------------------------------------------------
  // Hops
  // ---------------------------------------------------------------------

  datatype Hop = Up | Down | Left | Right | Stay

  const UpKeys: set<string> := {"arrowup", "w", " ", "spacebar"}
  const DownKeys: set<string> := {"arrowdown", "s"}
  const LeftKeys: set<string> := {"arrowleft", "a"}
  const RightKeys: set<string> := {"arrowright", "d"}

  /** The hop the held keys ask for, by priority up > down > left > right.
      Touch controls are not consulted. */
  function HopFor(keys: set<string>): Hop
  {
    if "arrowup" in keys || "w" in keys || " " in keys || "spacebar" in keys then Up
    else if "arrowdown" in keys || "s" in keys then Down
    else if "arrowleft" in keys || "a" in keys then Left
    else if "arrowright" in keys || "d" in keys then Right
    else Stay
  }

  /** Some key of `names` is held. */
  predicate Holds(keys: set<string>, names: set<string>)
  {
    exists k :: k in names && k in keys
  }

  /** The hop keys are exactly the aliases of the mobile actions, and the
      hop chosen is the first direction, in the order up, down, left,
      right, one of whose keys is held. */
  lemma HopPriority(keys: set<string>)
    ensures UpKeys == Aliases("up") && DownKeys == Aliases("down")
    ensures LeftKeys == Aliases("left") && RightKeys == Aliases("right")
    ensures HopFor(keys) == Up <==> Holds(keys, UpKeys)
    ensures HopFor(keys) == Down <==> !Holds(keys, UpKeys) && Holds(keys, DownKeys)
    ensures HopFor(keys) == Left <==> !Holds(keys, UpKeys) && !Holds(keys, DownKeys) && Holds(keys, LeftKeys)
    ensures HopFor(keys) == Right <==>
      !Holds(keys, UpKeys) && !Holds(keys, DownKeys) && !Holds(keys, LeftKeys) && Holds(keys, RightKeys)
  {
    var h := HopFor(keys);
    if "arrowup" in keys { assert "arrowup" in UpKeys; }
    if "w" in keys { assert "w" in UpKeys; }
    if " " in keys { assert " " in UpKeys; }
    if "spacebar" in keys { assert "spacebar" in UpKeys; }
    if "arrowdown" in keys { assert "arrowdown" in DownKeys; }
    if "s" in keys { assert "s" in DownKeys; }
    if "arrowleft" in keys { assert "arrowleft" in LeftKeys; }
    if "a" in keys { assert "a" in LeftKeys; }
    if "arrowright" in keys { assert "arrowright" in RightKeys; }
    if "d" in keys { assert "d" in RightKeys; }
  }

  /** A hop moves one lane height along one axis. */
  function Hopped(p: Pos, h: Hop): (q: Pos)
    ensures h == Up || h == Down ==> q.x == p.x && Abs(q.y - p.y) == LaneHeight
    ensures h == Left || h == Right ==> q.y == p.y && Abs(q.x - p.x) == LaneHeight
    ensures h == Up ==> q.y < p.y
    ensures h == Stay ==> q == p
  {
    match h
    case Up => p.(y := p.y - LaneHeight)
    case Down => p.(y := p.y + LaneHeight)
    case Left => p.(x := p.x - LaneHeight)
    case Right => p.(x := p.x + LaneHeight)
    case Stay => p
  }

  /** The boundary check: x into [0, width - 30], y into [0, height - 30];
      a position already inside is kept. */
  function Clamped(p: Pos, width: real, height: real): (r: Pos)
    ensures width >= PlayerSize ==> 0.0 <= r.x <= width - PlayerSize
    ensures height >= PlayerSize ==> 0.0 <= r.y <= height - PlayerSize
    ensures 0.0 <= p.x <= width - PlayerSize ==> r.x == p.x
    ensures 0.0 <= p.y <= height - PlayerSize ==> r.y == p.y
  {
    var x := if p.x < 0.0 then 0.0 else p.x;
    var y := if p.y < 0.0 then 0.0 else p.y;
    Pos(if x > width - PlayerSize then width - PlayerSize else x,
        if y > height - PlayerSize then height - PlayerSize else y)
  }

  /** The per-frame cooldown decrement. */
  function Tick(cd: int): int
  {
    if cd > 0 then cd - 1 else cd
  }

  /** The cooldown after k frames without a hop. */
  function Idle(cd: int, k: nat): int
  {
    if k == 0 then cd else Tick(Idle(cd, k - 1))
  }

  lemma {:induction false} IdleCountdown(cd: int, k: nat)
    requires cd >= 0
    ensures Idle(cd, k) == MaxInt(cd - k, 0)
  {
    if k > 0 {
      IdleCountdown(cd, k - 1);
    }
  }

  /** After a hop the cooldown is 35; a hop needs the decremented cooldown
      to be 0, which it is first on the 35th frame after, so two hops are
      at least 35 frames apart. */
  lemma HopsApart(k: nat)
    requires 1 <= k <= 34
    ensures Idle(MoveCooldown, k) > 0
    ensures Idle(MoveCooldown, MoveCooldown) == 0
  {
    IdleCountdown(MoveCooldown, k);
    IdleCountdown(MoveCooldown, MoveCooldown);
  }

  // ---------------------------------------------------------------------
  // Goal zones
  // ---------------------------------------------------------------------

  /** The part of the state the zone check changes, besides the score. */
  datatype Reach = Reach(player: Pos, completed: seq<bool>, timeLeft: int)

  /** Zone k of the forEach: an uncompleted zone within 50 px horizontally
      is completed (which awards 200), sends the player home and refills
      the timer. */
  function ReachOne(r: Reach, zone: Pos, k: int, home: Pos, maxTime: int): (s: Reach)
    requires 0 <= k < |r.completed|
    ensures |s.completed| == |r.completed|
  {
    if Abs(r.player.x - zone.x) < 50.0 && !r.completed[k] then Reach(home, r.completed[k := true], maxTime)
    else r
  }

  /** The first k zones of the forEach, in order. */
  function ReachFold(r: Reach, zones: seq<Pos>, k: int, home: Pos, maxTime: int): (s: Reach)
    requires 0 <= k <= |zones| <= |r.completed|
    ensures |s.completed| == |r.completed|
    decreases k
  {
    if k == 0 then r
    else ReachOne(ReachFold(r, zones, k - 1, home, maxTime), zones[k - 1], k - 1, home, maxTime)
  }

  /** Every zone is completed: the `every` test of update. */
  predicate AllDone(c: seq<bool>)
  {
    forall j :: 0 <= j < |c| ==> c[j]
  }

  /** Every zone is completed exactly when all of them count. */
  lemma {:induction false} AllDoneCount(c: seq<bool>)
    ensures AllDone(c) <==> Count(c) == |c|
  {
    if c != [] {
      AllDoneCount(c[1..]);
      assert AllDone(c) <==> c[0] && AllDone(c[1..]) by {
        if AllDone(c) {
          assert forall j :: 0 <= j < |c[1..]| ==> c[1..][j] == c[j + 1];
        }
        if c[0] && AllDone(c[1..]) {
          assert forall j :: 1 <= j < |c| ==> c[j] == c[1..][j - 1];
        }
      }
    }
  }

  /** How many zones are completed. */
  function Count(c: seq<bool>): (n: nat)
    ensures n <= |c|
  {
    if c == [] then 0 else (if c[0] then 1 else 0) + Count(c[1..])
  }

  lemma {:induction false} CountSet(c: seq<bool>, k: int)
    requires 0 <= k < |c| && !c[k]
    ensures Count(c[k := true]) == Count(c) + 1
  {
    if k > 0 {
      assert c[k := true][1..] == c[1..][k - 1 := true];
      CountSet(c[1..], k - 1);
    }
  }

  /** The zone check never clears a completed zone, and a check that
      completes none changes nothing. */
  lemma {:induction false} ZonesKept(r: Reach, zones: seq<Pos>, k: int, home: Pos, maxTime: int)
    requires 0 <= k <= |zones| <= |r.completed|
    ensures var f := ReachFold(r, zones, k, home, maxTime);
      (forall j :: 0 <= j < |r.completed| && r.completed[j] ==> f.completed[j])
      && Count(r.completed) <= Count(f.completed)
      && (Count(f.completed) == Count(r.completed) ==> f == r)
  {
    if k > 0 {
      ZonesKept(r, zones, k - 1, home, maxTime);
      var g := ReachFold(r, zones, k - 1, home, maxTime);
      if Abs(g.player.x - zones[k - 1].x) < 50.0 && !g.completed[k - 1] {
        CountSet(g.completed, k - 1);
      }
    }
  }

  /** The zone check either leaves the player and the timer alone or sends
      the player home with a full timer. */
  lemma {:induction false} ZonesHome(r: Reach, zones: seq<Pos>, k: int, home: Pos, maxTime: int)
    requires 0 <= k <= |zones| <= |r.completed|
    ensures var f := ReachFold(r, zones, k, home, maxTime);
      (f.player == r.player && f.timeLeft == r.timeLeft) || (f.player == home && f.timeLeft == maxTime)
  {
    if k > 0 {
      ZonesHome(r, zones, k - 1, home, maxTime);
    }
  }

  // ---------------------------------------------------------------------
  // Deaths
  // ---------------------------------------------------------------------

  /** The part of the state a death changes. */
  datatype Fate = Fate(player: Pos, lives: int, running: bool, events: seq<Event>)

  /** playerDied: one life less, the player back at (400, 550), and the game
      ended once no life is left. */
  function Died(f: Fate, score: real, level: int, onEnd: bool): (g: Fate)
    ensures g.lives == f.lives - 1 && g.player == Respawn
    ensures g.running <==> f.running && g.lives > 0
    ensures g.lives > 0 ==> g.events == f.events
  {
    var lives := f.lives - 1;
    Fate(Respawn, lives, f.running && lives > 0, f.events + (if lives <= 0 then EndEvent(onEnd, score, level) else []))
  }

  /** The road forEach over the first k objects: each object that overlaps
      the player where the player is at that moment kills them. */
  function Crashes(f: Fate, os: seq<MovingObject>, k: int, score: real, level: int, onEnd: bool): Fate
    requires 0 <= k <= |os|
    decreases k
  {
    if k == 0 then f
    else
      var g := Crashes(f, os, k - 1, score, level, onEnd);
      if Overlaps(g.player, os[k - 1]) then Died(g, score, level, onEnd) else g
  }

  /** A road pass costs at most one life per object; a death leaves the
      player at the respawn point, and a pass with no object touching the
      player changes nothing. */
  lemma {:induction false} CrashBounds(f: Fate, os: seq<MovingObject>, k: int, score: real, level: int, onEnd: bool)
    requires 0 <= k <= |os|
    ensures var g := Crashes(f, os, k, score, level, onEnd);
      f.lives - k <= g.lives <= f.lives
      && (g.running ==> f.running)
      && (g.lives < f.lives ==> g.player == Respawn)
      && (g.lives == f.lives ==> g == f)
      && ((forall m :: 0 <= m < k ==> !Overlaps(f.player, os[m])) ==> g == f)
  {
    if k > 0 {
      CrashBounds(f, os, k - 1, score, level, onEnd);
    }
  }

  // ---------------------------------------------------------------------
  // Platforms and hazards
  // ---------------------------------------------------------------------

  /** What updateObjects leaves in player, onWater and currentLog. */
  datatype Ride = Ride(player: Pos, onWater: bool, log: Option<MovingObject>)

  /** The platform check of updateObjects on the moved lanes: in a water
      lane the player rides the first object under them, or is in the
      water; elsewhere neither. */
  function Riding(ls: seq<Lane>, p: Pos): (r: Ride)
    ensures r.log.Some? ==> !r.onWater && r.player == p.(x := p.x + r.log.value.speed)
    ensures r.log.None? ==> r.player == p
  {
    var k := FirstLane(ls, p.y, 0);
    if k >= 0 && ls[k].terrain == Water then
      var j := FirstOverlap(ls[k].objects, p, 0);
      if j >= 0 then Ride(p.(x := p.x + ls[k].objects[j].speed), false, Some(ls[k].objects[j]))
      else Ride(p, true, None)
    else Ride(p, false, None)
  }

  /** The player is in the water exactly when their lane is a water lane
      and no object of it overlaps them; they ride an object exactly when
      one does, and then it is the first such object. */
  lemma RidingFacts(ls: seq<Lane>, p: Pos)
    ensures var r := Riding(ls, p); var k := FirstLane(ls, p.y, 0);
      (r.onWater <==> k >= 0 && ls[k].terrain == Water && forall j :: 0 <= j < |ls[k].objects| ==> !Overlaps(p, ls[k].objects[j]))
      && (r.log.Some? <==> k >= 0 && ls[k].terrain == Water && exists j :: 0 <= j < |ls[k].objects| && Overlaps(p, ls[k].objects[j]))
      && (r.log.Some? ==> r.log.value in ls[k].objects && Overlaps(p, r.log.value))
  {
    var k := FirstLane(ls, p.y, 0);
    if k >= 0 && ls[k].terrain == Water {
      FirstOverlapFinds(ls[k].objects, p, 0);
      var j := FirstOverlap(ls[k].objects, p, 0);
      if j >= 0 {
        assert Overlaps(p, ls[k].objects[j]);
      }
    }
  }

  /** What checkCollisions does to the player, the lives and the game: no
      lane, nothing; a road lane, the deaths of the road pass; then a death
      for being in the water. */
  function Hazard(ls: seq<Lane>, f: Fate, onWater: bool, score: real, level: int, onEnd: bool): Fate
  {
    var k := FirstLane(ls, f.player.y, 0);
    if k < 0 then f
    else
      var g := if ls[k].terrain == Road then Crashes(f, ls[k].objects, |ls[k].objects|, score, level, onEnd) else f;
      if onWater then Died(g, score, level, onEnd) else g
  }

  // ---------------------------------------------------------------------
  // Building a level
  // ---------------------------------------------------------------------

  /** addRoadObjects and addWaterObjects: push the lane's 2 or 3 objects. */
  method AddObjects(lane: Lane, width: real, level: int, d: LaneDraw) returns (r: Lane)
    requires level > -50
    requires lane.terrain != Safe
    ensures r == lane.(objects := lane.objects + LaneObjects(lane.terrain, lane.y, lane.direction, level, width, d))
  {
    var count := ObjectCount(d.count);
    var spacing := width / count as real;
    var added: seq<MovingObject> := [];
    for j := 0 to count
      invariant |added| == j
      invariant forall m :: 0 <= m < j ==>
        added[m] == (if lane.terrain == Road then RoadObject(m, spacing, lane.y, lane.direction, level, ObjectDrawAt(d, m))
                     else WaterObject(m, spacing, lane.y, lane.direction, level, ObjectDrawAt(d, m)))
    {
      var o;
      if lane.terrain == Road {
        o := RoadObject(j, spacing, lane.y, lane.direction, level, ObjectDrawAt(d, j));
      } else {
        o := WaterObject(j, spacing, lane.y, lane.direction, level, ObjectDrawAt(d, j));
      }
      added := added + [o];
    }
    r := lane.(objects := lane.objects + added);
  }

  /** The lane loop of initializeLevel, over a local list. */
  method BuildLanes(width: real, height: real, level: int, draws: seq<LaneDraw>) returns (ls: seq<Lane>)
    requires level > -50
    ensures ls == Lanes(width, height, level, draws)
  {
    ls := [];
    var n := LaneCount(height);
    for i := 0 to n
      invariant |ls| == i
      invariant forall k :: 0 <= k < i ==> ls[k] == NewLane(k, n, width, height, level, LaneDrawAt(draws, k))
    {
      var y := height - LaneHeight * (i + 1) as real;
      var t := TerrainOf(i, n);
      var lane := Lane(y, [], t, Direction(i));
      if t == Road || t == Water {
        lane := AddObjects(lane, width, level, LaneDrawAt(draws, i));
        assert [] + LaneObjects(t, y, Direction(i), level, width, LaneDrawAt(draws, i)) == lane.objects;
      }
      assert lane == NewLane(i, n, width, height, level, LaneDrawAt(draws, i));
      ls := ls + [lane];
    }
  }

  // ---------------------------------------------------------------------
  // The game
  // ---------------------------------------------------------------------

  class Game {
    const width: real
    const height: real
    const engine: Engine
    var player: Pos
    var lanes: seq<Lane>
    var lives: int
    var timeLeft: int
    var maxTime: int
    var safeZones: seq<Pos>
    var completedZones: seq<bool>
    var onWater: bool
    var currentLog: Option<MovingObject>
    var moveCooldown: int

    /** Five zones, the lives cap, the cooldown range and a positive level. */
    predicate Valid()
      reads this`lives, this`safeZones, this`completedZones, this`moveCooldown, this`maxTime, engine`level
    {
      safeZones == Goals() && |completedZones| == 5 && lives <= MaxLives
      && 0 <= moveCooldown <= MoveCooldown && maxTime == 3600 && engine.level >= 1
    }

    /** The lanes have the layout of a freshly built level. */
    predicate Paved()
      reads this`lanes
    {
      LanesOk(lanes, height)
    }

    function Reached(): Reach
      reads this`player, this`completedZones, this`timeLeft
    {
      Reach(player, completedZones, timeLeft)
    }

    function Fated(): Fate
      reads this`player, this`lives, engine`running, engine`events
    {
      Fate(player, lives, engine.running, engine.events)
    }

    constructor (width: real, height: real, draws: seq<LaneDraw>)
      ensures this.width == width && this.height == height && fresh(engine)
      ensures Valid() && Paved()
      ensures lanes == Lanes(width, height, 1, draws) && player == Home(width, height)
      ensures completedZones == [false, false, false, false, false]
      ensures lives == 8 && timeLeft == 3600 && moveCooldown == 0 && !onWater && currentLog == None
      ensures engine.level == 1 && engine.score == 0.0 && !engine.running && engine.events == []
    {
      this.width := width;
      this.height := height;
      engine := new Engine();
      player := Respawn;
      lanes := [];
      lives := 8;
      timeLeft := 3600;
      maxTime := 3600;
      safeZones := [];
      completedZones := [];
      onWater := false;
      currentLog := None;
      moveCooldown := 0;
      new;
      InitializeLevel(draws);
      LanesShape(width, height, 1, draws);
    }

    /** initializeLevel: fresh lanes for the current level, five open zones,
        the player at home and a full timer. */
    method InitializeLevel(draws: seq<LaneDraw>)
      requires engine.level > -50
      modifies this`lanes, this`safeZones, this`completedZones, this`player, this`timeLeft
      ensures lanes == Lanes(width, height, engine.level, draws)
      ensures safeZones == Goals() && completedZones == [false, false, false, false, false]
      ensures player == Home(width, height) && timeLeft == maxTime
    {
      lanes := [];
      safeZones := [];
      completedZones := [false, false, false, false, false];
      player := Home(width, height);
      timeLeft := maxTime;
      lanes := BuildLanes(width, height, engine.level, draws);
      var zones: seq<Pos> := [];
      for i := 0 to 5
        invariant |zones| == i
        invariant forall k :: 0 <= k < i ==> zones[k] == Pos(50.0 + 140.0 * k as real, LaneHeight / 2.0)
      {
        zones := zones + [Pos(50.0 + 140.0 * i as real, LaneHeight / 2.0)];
      }
      assert zones == Goals();
      safeZones := zones;
    }

    /** The hop half of updatePlayer: the cooldown ticks down, and a hop is
        made only at cooldown 0 and restarts it at 35. */
    method Step() returns (moved: bool)
      modifies this`player, this`moveCooldown
      ensures var cd := Tick(old(moveCooldown));
        moved == (cd == 0 && HopFor(engine.keys) != Stay)
        && moveCooldown == (if moved then MoveCooldown else cd)
        && player == (if moved then Hopped(old(player), HopFor(engine.keys)) else old(player))
    {
      if moveCooldown > 0 {
        moveCooldown := moveCooldown - 1;
      }
      moved := false;
      if moveCooldown == 0 {
        var keys := engine.keys;
        if "arrowup" in keys || "w" in keys || " " in keys || "spacebar" in keys {
          player := player.(y := player.y - LaneHeight);
          moved := true;
          moveCooldown := MoveCooldown;
        } else if "arrowdown" in keys || "s" in keys {
          player := player.(y := player.y + LaneHeight);
          moved := true;
          moveCooldown := MoveCooldown;
        } else if "arrowleft" in keys || "a" in keys {
          player := player.(x := player.x - LaneHeight);
          moved := true;
          moveCooldown := MoveCooldown;
        } else if "arrowright" in keys || "d" in keys {
          player := player.(x := player.x + LaneHeight);
          moved := true;
          moveCooldown := MoveCooldown;
        }
      }
    }

    /** The boundary check of updatePlayer. */
    method Clamp()
      modifies this`player
      ensures player == Clamped(old(player), width, height)
    {
      if player.x < 0.0 { player := player.(x := 0.0); }
      if player.x > width - PlayerSize { player := player.(x := width - PlayerSize); }
      if player.y < 0.0 { player := player.(y := 0.0); }
      if player.y > height - PlayerSize { player := player.(y := height - PlayerSize); }
    }

    /** One zone of the forEach. */
    method TryZone(i: int)
      requires 0 <= i < |safeZones| && i < |completedZones|
      modifies this`completedZones, this`player, this`timeLeft, engine`score, engine`events
      ensures Reached() == ReachOne(old(Reached()), safeZones[i], i, Home(width, height), maxTime)
      ensures Count(completedZones) == Count(old(completedZones)) ==> engine.score == old(engine.score) && engine.events == old(engine.events)
      ensures Count(completedZones) != Count(old(completedZones)) ==>
        Count(completedZones) == Count(old(completedZones)) + 1 && engine.score == old(engine.score) + 200.0
        && engine.events == old(engine.events) + ScoreEvent(engine.onScoreChange, engine.score)
    {
      var zone := safeZones[i];
      if Abs(player.x - zone.x) < 50.0 && !completedZones[i] {
        CountSet(completedZones, i);
        completedZones := completedZones[i := true];
        engine.UpdateScore(engine.score + 200.0);
        player := Home(width, height);
        timeLeft := maxTime;
      }
    }

    /** The zone half of updatePlayer: the forEach over the five zones. Each
        newly completed zone adds 200 to the score and one report. */
    method ReachZones()
      requires |safeZones| <= |completedZones|
      modifies this`completedZones, this`player, this`timeLeft, engine`score, engine`events
      ensures Reached() == ReachFold(old(Reached()), safeZones, |safeZones|, Home(width, height), maxTime)
      ensures var n := Count(completedZones) - Count(old(completedZones));
        n >= 0 && engine.score == old(engine.score) + 200.0 * n as real
        && engine.events == old(engine.events) + ScoreRun(engine.onScoreChange, old(engine.score), 200.0, n)
    {
      ghost var r0 := Reached();
      ghost var score0, log0 := engine.score, engine.events;
      ghost var captured: nat := 0;
      assert log0 + [] == log0;
      for i := 0 to |safeZones|
        invariant |completedZones| == |r0.completed|
        invariant Reached() == ReachFold(r0, safeZones, i, Home(width, height), maxTime)
        invariant captured == Count(completedZones) - Count(r0.completed)
        invariant engine.score == score0 + 200.0 * captured as real
        invariant engine.events == log0 + ScoreRun(engine.onScoreChange, score0, 200.0, captured)
      {
        ghost var log := engine.events;
        ghost var count := Count(completedZones);
        TryZone(i);
        if Count(completedZones) != count {
          LogExtends(log0, log, engine.onScoreChange, score0, 200.0, captured, score0 + 200.0 * captured as real);
          captured := captured + 1;
        }
      }
    }

    /** The zone check of updatePlayer, made only while the player is above
        y = 100: completed zones stay completed, and the score grows by
        exactly 200 per newly completed zone. */
    method Capture()
      requires |safeZones| == 5 && |completedZones| == 5
      modifies this`completedZones, this`player, this`timeLeft, engine`score, engine`events
      ensures |completedZones| == 5
      ensures forall j :: 0 <= j < 5 && old(completedZones)[j] ==> completedZones[j]
      ensures Count(old(completedZones)) <= Count(completedZones)
      ensures engine.score == old(engine.score) + 200.0 * (Count(completedZones) - Count(old(completedZones))) as real
      ensures engine.events == old(engine.events)
        + ScoreRun(engine.onScoreChange, old(engine.score), 200.0, Count(completedZones) - Count(old(completedZones)))
      ensures (player == old(player) && timeLeft == old(timeLeft)) || (player == Home(width, height) && timeLeft == maxTime)
      ensures old(player).y < LaneHeight * 2.0 ==>
        Reached() == ReachFold(old(Reached()), safeZones, 5, Home(width, height), maxTime)
      ensures old(player).y >= LaneHeight * 2.0 ==> Reached() == old(Reached())
    {
      if player.y < LaneHeight * 2.0 {
        ghost var r0 := Reached();
        ReachZones();
        ZonesKept(r0, safeZones, 5, Home(width, height), maxTime);
        ZonesHome(r0, safeZones, 5, Home(width, height), maxTime);
      }
    }

    /** updatePlayer: a hop, the boundary check, the zone check and +10 for
        a hop that left the player higher up. */
    method UpdatePlayer()
      requires Valid()
      modifies this`player, this`moveCooldown, this`completedZones, this`timeLeft, engine`score, engine`events
      ensures Valid()
      ensures var cd := Tick(old(moveCooldown));
        moveCooldown == (if cd == 0 && HopFor(engine.keys) != Stay then MoveCooldown else cd)
      ensures forall j :: 0 <= j < 5 && old(completedZones)[j] ==> completedZones[j]
      ensures Count(old(completedZones)) <= Count(completedZones)
      ensures engine.score == old(engine.score) + 200.0 * (Count(completedZones) - Count(old(completedZones))) as real
                              + (if moveCooldown == MoveCooldown && player.y < old(player.y) then 10.0 else 0.0)
      ensures engine.events == old(engine.events)
        + ScoreRun(engine.onScoreChange, old(engine.score), 200.0, Count(completedZones) - Count(old(completedZones)))
        + (if moveCooldown == MoveCooldown && player.y < old(player.y) then ScoreEvent(engine.onScoreChange, engine.score) else [])
      ensures timeLeft == old(timeLeft) || timeLeft == maxTime
      ensures var cd := Tick(old(moveCooldown));
        var hop := if cd == 0 && HopFor(engine.keys) != Stay then Hopped(old(player), HopFor(engine.keys)) else old(player);
        var r := Reach(Clamped(hop, width, height), old(completedZones), old(timeLeft));
        Reached() == (if r.player.y < LaneHeight * 2.0 then ReachFold(r, safeZones, 5, Home(width, height), maxTime) else r)
    {
      ghost var log, score, zones := engine.events, engine.score, Count(completedZones);
      var oldY := player.y;
      var moved := Step();
      Clamp();
      assert moved <==> moveCooldown == MoveCooldown;
      Capture();
      HopBonus(moved && player.y < oldY, log, score, Count(completedZones) - zones);
    }

    /** The last statement of updatePlayer: +10 and one report for a hop
        that left the player higher up. `log`, `score` and `n` name the
        report log, the score and the zones captured at the frame's start. */
    method HopBonus(b: bool, ghost log: seq<Event>, ghost score: real, ghost n: nat)
      requires engine.events == log + ScoreRun(engine.onScoreChange, score, 200.0, n)
      modifies engine`score, engine`events
      ensures engine.score == old(engine.score) + (if b then 10.0 else 0.0)
      ensures engine.events == log + ScoreRun(engine.onScoreChange, score, 200.0, n)
        + (if b then ScoreEvent(engine.onScoreChange, engine.score) else [])
    {
      if b {
        engine.UpdateScore(engine.score + 10.0);
      }
    }

    /** updateObjects: the belts move, then a player in a water lane rides
        the first object under them, or is marked as in the water. */
    method UpdateObjects()
      requires Paved()
      modifies this`lanes, this`onWater, this`currentLog, this`player
      ensures Paved()
      ensures lanes == Drifted(old(lanes), width)
      ensures Ride(player, onWater, currentLog) == Riding(lanes, old(player))
    {
      onWater := false;
      currentLog := None;
      DriftKeepsShape(lanes, width, height);
      lanes := DriftAll(lanes, width);
      var k := FirstLane(lanes, player.y, 0);
      if k >= 0 && lanes[k].terrain == Water {
        onWater := true;
        var j := FirstOverlap(lanes[k].objects, player, 0);
        if j >= 0 {
          var support := lanes[k].objects[j];
          currentLog := Some(support);
          player := player.(x := player.x + support.speed);
          onWater := false;
        }
      }
    }

    method UpdateTimer()
      modifies this`timeLeft
      ensures timeLeft == old(timeLeft) - 1
    {
      timeLeft := timeLeft - 1;
    }

    method PlayerDied()
      modifies this`player, this`lives, engine`running, engine`events
      ensures Fated() == Died(old(Fated()), engine.score, engine.level, engine.onGameEnd)
    {
      lives := lives - 1;
      player := Respawn;
      if lives <= 0 {
        engine.EndGame();
      }
    }

    /** checkCollisions: nothing outside every lane; in a road lane every
        overlapping object is a death; then being in the water is one. */
    method CheckCollisions()
      requires Valid()
      modifies this`player, this`lives, engine`running, engine`events
      ensures Valid()
      ensures Fated() == Hazard(lanes, old(Fated()), onWater, engine.score, engine.level, engine.onGameEnd)
      ensures lives <= old(lives) && (engine.running ==> old(engine.running))
      ensures lives < old(lives) ==> player == Respawn
    {
      var k := FirstLane(lanes, player.y, 0);
      if k < 0 {
        CrashBounds(Fated(), [], 0, engine.score, engine.level, engine.onGameEnd);
        return;
      }
      if lanes[k].terrain == Road {
        var os := lanes[k].objects;
        ghost var f0 := Fated();
        for j := 0 to |os|
          invariant Fated() == Crashes(f0, os, j, engine.score, engine.level, engine.onGameEnd)
        {
          if Overlaps(player, os[j]) {
            PlayerDied();
          }
        }
        CrashBounds(f0, os, |os|, engine.score, engine.level, engine.onGameEnd);
      }
      if onWater {
        PlayerDied();
      }
    }

    /** nextLevel: level + 1, +500, one life back up to 8, and a fresh level.
        The speeds it multiplies first are rebuilt from the draws by
        initializeLevel, so the new lanes do not depend on that factor. */
    method NextLevel(draws: seq<LaneDraw>)
      requires Valid()
      modifies this`lanes, this`safeZones, this`completedZones, this`player, this`timeLeft, this`lives,
               this`onWater, this`currentLog, engine`level, engine`score, engine`events
      ensures Valid() && Paved()
      ensures engine.level == old(engine.level) + 1 && engine.score == old(engine.score) + 500.0
      ensures engine.events == old(engine.events) + LevelEvent(engine.onLevelChange, engine.level)
                               + ScoreEvent(engine.onScoreChange, engine.score)
      ensures lives == MinInt(old(lives) + 1, MaxLives)
      ensures lanes == Lanes(width, height, old(engine.level) + 1, draws)
      ensures completedZones == [false, false, false, false, false] && player == Home(width, height)
      ensures timeLeft == maxTime && !onWater && currentLog == None
    {
      engine.UpdateLevel(engine.level + 1);
      engine.UpdateScore(engine.score + 500.0);
      lives := lives + 1;
      lives := MinInt(lives, MaxLives);
      player := Home(width, height);
      timeLeft := maxTime;
      completedZones := [false, false, false, false, false];
      onWater := false;
      currentLog := None;
      var factor := 1.0 + engine.level as real * 0.05;
      lanes := ScaleAll(lanes, factor);
      InitializeLevel(draws);
      LanesShape(width, height, engine.level, draws);
    }

    /** The end check of update, after the timer tick: time up or no lives
        left ends the game; it never costs a life. */
    method Settle()
      modifies engine`running, engine`events
      ensures timeLeft <= 0 || lives <= 0 ==> !engine.running && engine.events == old(engine.events) + EndEvent(engine.onGameEnd, engine.score, engine.level)
      ensures timeLeft > 0 && lives > 0 ==> engine.running == old(engine.running) && engine.events == old(engine.events)
      ensures lives == old(lives)
    {
      if timeLeft <= 0 {
        engine.EndGame();
      } else if lives <= 0 {
        engine.EndGame();
      }
    }

    /** The win check of update: once every zone is completed, nextLevel;
        otherwise nothing changes. */
    method CheckWin(draws: seq<LaneDraw>)
      requires Valid()
      modifies this`lanes, this`safeZones, this`completedZones, this`player, this`timeLeft, this`lives,
               this`onWater, this`currentLog, engine`level, engine`score, engine`events
      ensures Valid() && (old(Paved()) ==> Paved())
      ensures AllDone(old(completedZones)) ==>
        && engine.level == old(engine.level) + 1 && engine.score == old(engine.score) + 500.0
        && engine.events == old(engine.events) + LevelEvent(engine.onLevelChange, engine.level)
                            + ScoreEvent(engine.onScoreChange, engine.score)
        && lives == MinInt(old(lives) + 1, MaxLives)
        && lanes == Lanes(width, height, old(engine.level) + 1, draws)
        && completedZones == [false, false, false, false, false] && player == Home(width, height)
        && timeLeft == maxTime && !onWater && currentLog == None
      ensures !AllDone(old(completedZones)) ==>
        && unchanged(this) && engine.level == old(engine.level)
        && engine.score == old(engine.score) && engine.events == old(engine.events)
    {
      if forall j :: 0 <= j < |completedZones| ==> completedZones[j] {
        NextLevel(draws);
      }
    }

    /** The first half of update: the player, the belts, the collisions
        and the timer. A frame never raises the lives or restarts a stopped
        game. */
    method Advance()
      requires Valid() && Paved()
      modifies this`player, this`moveCooldown, this`completedZones, this`timeLeft, this`lanes, this`onWater,
               this`currentLog, this`lives, engine`score, engine`events, engine`running
      ensures Valid() && Paved()
      ensures lives <= old(lives) && (engine.running ==> old(engine.running))
      ensures engine.score >= old(engine.score)
    {
      ghost var lives0, score0 := lives, engine.score;
      UpdatePlayer();
      assert Valid() && Paved() && lives == lives0 && engine.score >= score0;
      UpdateObjects();
      CheckCollisions();
      UpdateTimer();
    }

    /** update: the four steps, then the level change once all five zones
        are done, then the end check. `mid` names the zones and `log` the
        report log as they stand before the win check and the end check. */
    method Update(draws: seq<LaneDraw>) returns (ghost mid: seq<bool>, ghost log: seq<Event>)
      requires Valid() && Paved()
      modifies this`player, this`moveCooldown, this`completedZones, this`timeLeft, this`lanes, this`onWater,
               this`currentLog, this`lives, this`safeZones, engine`score, engine`events, engine`level, engine`running
      ensures Valid() && Paved()
      ensures engine.level == old(engine.level) || engine.level == old(engine.level) + 1
      ensures lives <= old(lives) + 1 && engine.score >= old(engine.score)
      ensures timeLeft <= 0 || lives <= 0 ==> !engine.running
      ensures engine.running ==> old(engine.running)
      ensures engine.level == old(engine.level) + 1 ==>
        && lanes == Lanes(width, height, engine.level, draws) && player == Home(width, height)
        && completedZones == [false, false, false, false, false] && timeLeft == maxTime
      ensures engine.level == old(engine.level) + 1 <==> AllDone(mid)
      ensures timeLeft <= 0 || lives <= 0 ==> engine.events == log + EndEvent(engine.onGameEnd, engine.score, engine.level)
      ensures timeLeft > 0 && lives > 0 ==> engine.events == log
    {
      Advance();
      mid := completedZones;
      CheckWin(draws);
      log := engine.events;
      Settle();
    }

    /** One animation frame: update only while running and not paused, and
        keep the loop going while running. */
    method Frame(draws: seq<LaneDraw>)
      requires Valid() && Paved()
      modifies this`player, this`moveCooldown, this`completedZones, this`timeLeft, this`lanes, this`onWater,
               this`currentLog, this`lives, this`safeZones, engine`score, engine`events, engine`level, engine`running,
               engine`frameRequested
      ensures Valid() && Paved()
      ensures engine.frameRequested == old(engine.running)
      ensures !(old(engine.running) && !old(engine.paused)) ==>
        unchanged(this) && engine.running == old(engine.running) && engine.score == old(engine.score)
        && engine.level == old(engine.level) && engine.events == old(engine.events)
    {
      var wasRunning := engine.running;
      if UpdatePhase in FramePhases(engine.running, engine.paused) {
        ghost var mid, log := Update(draws);
      }
      engine.ScheduleNext(wasRunning);
    }
  }
}
