/** Bitcoin Defender, the Galaga-style shooter: waves of enemies to destroy
    before the wave timer runs out, a capped and rate-limited player gun,
    enemy fire, and the success-before-failure rule at the end of a frame. */
module Galaga {
  import opened Common
  import opened GameEngine

  datatype Bullet = Bullet(x: real, y: real, speed: real, isPlayerBullet: bool)

  datatype Kind = Basic | Fighter | Boss

  datatype Enemy = Enemy(x: real, y: real, kind: Kind, health: int, points: int, speed: real, shootTimer: real)

  datatype Explosion = Explosion(x: real, y: real, timer: int)

  /** The page's view of the game; only the timer failure changes it. */
  datatype GameState = Playing | GameOver

  /** Math.sin of the enemy's phase: a real in [-1, 1]. */
  type Sine = r: real | -1.0 <= r <= 1.0

  /** The Math.random() results spawnRandomEnemy uses, in the order it draws
      them: the type (not drawn on wave 1), x, y and the shoot timer. */
  datatype EnemyDraw = EnemyDraw(kind: Unit, x: Unit, y: Unit, shoot: Unit)

  /** What one enemy's turn of updateEnemies reads from Math.sin and
      Math.random: its sway, the respawn position, the fire roll and the new
      shoot timer. Fields the turn does not reach are ignored. */
  datatype Turn = Turn(sine: Sine, respawnY: Unit, respawnX: Unit, fire: Unit, reload: Unit)

  /** The random inputs of one frame: the spawn roll of updateEnemies and the
      enemy it would spawn, each enemy's turn, and the enemies a wave restart
      spawns. */
  datatype Draws = Draws(spawnRoll: Unit, spawn: EnemyDraw, turns: seq<Turn>, wave: seq<EnemyDraw>)

  function DrawAt(ds: seq<EnemyDraw>, i: int): EnemyDraw
  {
    if 0 <= i < |ds| then ds[i] else EnemyDraw(0.0, 0.0, 0.0, 0.0)
  }

  function TurnAt(ts: seq<Turn>, i: int): Turn
  {
    if 0 <= i < |ts| then ts[i] else Turn(0.0, 0.0, 0.0, 0.0, 0.0)
  }

  /** The bullet speed of the player's gun. */
  const BulletSpeed: real := 7.0

  /** Frames between two player shots. */
  const ShootCooldownMax: int := 15

  /** Player bullets allowed on screen at once. */
  const MaxPlayerBullets: nat := 10

  // ---------------------------------------------------------------------
  // Enemies

  function Health(k: Kind): (h: int)
    ensures 1 <= h <= 3
    ensures h == 3 <==> k == Boss
    ensures h == 1 <==> k == Basic
  {
    match k
    case Boss => 3
    case Fighter => 2
    case Basic => 1
  }

  /** An enemy is worth 100 points per unit of starting health. */
  function Points(k: Kind): (p: int)
    ensures p == 100 * Health(k)
  {
    match k
    case Boss => 300
    case Fighter => 200
    case Basic => 100
  }

  /** An enemy as the game keeps it: worth the points of its type, with
      between one and its type's full health left. */
  predicate Rank(e: Enemy)
  {
    e.points == Points(e.kind) && 1 <= e.health <= Health(e.kind)
  }

  predicate Ranked(es: seq<Enemy>)
  {
    forall k :: 0 <= k < |es| ==> Rank(es[k])
  }

  /** The type rule of spawnRandomEnemy: only basic enemies on wave 1,
      70/30 basic/fighter up to wave 3, then 50/35/15 with bosses. */
  function KindFor(wave: int, u: Unit): (k: Kind)
    ensures wave == 1 ==> k == Basic
    ensures k == Boss ==> wave > 3 && u >= 0.85
    ensures k == Fighter ==> wave != 1 && ((wave <= 3 && u >= 0.7) || (wave > 3 && 0.5 <= u < 0.85))
  {
    if wave == 1 then Basic
    else if wave <= 3 then (if u < 0.7 then Basic else Fighter)
    else if u < 0.5 then Basic
    else if u < 0.85 then Fighter
    else Boss
  }

  /** Enemy speed: 0.4 + 0.15 per wave, at least 0.5. */
  function EnemySpeed(wave: int): (s: real)
    ensures s >= 0.5
    ensures wave >= 1 ==> s == 0.4 + wave as real * 0.15
  {
    Max(0.5, 0.4 + wave as real * 0.15)
  }

  /** spawnRandomEnemy's new enemy: above the top edge, at full health for
      its type, with a shoot timer in [100, 350). */
  function NewEnemy(wave: int, width: real, d: EnemyDraw): (e: Enemy)
    ensures e.kind == KindFor(wave, d.kind) && e.health == Health(e.kind) && e.points == Points(e.kind)
    ensures e.speed == EnemySpeed(wave)
    ensures -150.0 < e.y <= -50.0
    ensures 100.0 <= e.shootTimer < 350.0
  {
    var kind := KindFor(wave, d.kind);
    Enemy(d.x * (width - 40.0), -50.0 - d.y * 100.0, kind, Health(kind), Points(kind), EnemySpeed(wave), d.shoot * 250.0 + 100.0)
  }

  /** spawnInitialEnemies' count: 5 + wave, at most 8. */
  function InitialCount(wave: int): (n: int)
    ensures n <= 8
    ensures wave <= 3 ==> n == 5 + wave
  {
    MinInt(5 + wave, 8)
  }

  /** The enemies of one spawnInitialEnemies call, the i-th from the i-th
      draw. */
  function Recruits(wave: int, width: real, draws: seq<EnemyDraw>): (es: seq<Enemy>)
    ensures |es| == MaxInt(InitialCount(wave), 0) && Ranked(es)
    ensures forall i :: 0 <= i < |es| ==> es[i] == NewEnemy(wave, width, DrawAt(draws, i))
  {
    seq(MaxInt(InitialCount(wave), 0), i => NewEnemy(wave, width, DrawAt(draws, i)))
  }

  /** The kill target of a wave: 6 + 2 * wave, at least 8. */
  function WaveObjective(wave: int): (n: int)
    ensures n >= 8
    ensures wave >= 1 ==> n == 6 + 2 * wave
  {
    MaxInt(8, 6 + wave * 2)
  }

  /** The enemy cap of updateEnemies: 6 + wave, at most 12. */
  function MaxEnemies(wave: int): int { MinInt(6 + wave, 12) }

  function SpawnChance(wave: int): real { if wave == 1 then 0.015 else 0.025 }

  /** The spawn step of updateEnemies: below the cap, a roll under the
      spawn chance adds one enemy. */
  function Reinforced(es: seq<Enemy>, wave: int, width: real, roll: Unit, d: EnemyDraw): (r: seq<Enemy>)
    ensures r == es || r == es + [NewEnemy(wave, width, d)]
    ensures |r| > |es| <==> |es| < MaxEnemies(wave) && roll < SpawnChance(wave)
    ensures Ranked(es) ==> Ranked(r)
  {
    if |es| < MaxEnemies(wave) && roll < SpawnChance(wave) then es + [NewEnemy(wave, width, d)] else es
  }

  /** The chance that an enemy whose shoot timer ran out fires. */
  function ShootChance(wave: int, k: Kind): (c: real)
    ensures 0.0 < c <= 0.25
  {
    if wave == 1 then (if k == Basic then 0.03 else 0.05)
    else if k == Boss then 0.25
    else if k == Fighter then 0.15
    else 0.08
  }

  /** One enemy's turn of updateEnemies: sway and descend, respawn above the
      top edge at full health once below the bottom, count the shoot timer
      down and, when it runs out, maybe fire and reload. */
  function TurnEnemy(e: Enemy, wave: int, width: real, height: real, enemyBulletSpeed: real, t: Turn): (r: (Enemy, seq<Bullet>))
    ensures r.0.kind == e.kind && r.0.points == e.points && r.0.speed == e.speed
    ensures e.y + e.speed * 0.6 > height + 50.0 ==>
      r.0.health == Health(e.kind) && -150.0 < r.0.y <= -50.0
    ensures e.y + e.speed * 0.6 <= height + 50.0 ==>
      r.0.health == e.health && r.0.y == e.y + e.speed * 0.6 && r.0.x == e.x + t.sine * e.speed * 0.7
    ensures e.shootTimer - 1.0 > 0.0 ==> r.0.shootTimer == e.shootTimer - 1.0 && r.1 == []
    ensures e.shootTimer - 1.0 <= 0.0 ==> 80.0 <= r.0.shootTimer < 260.0
    ensures |r.1| <= 1 && forall b :: b in r.1 ==> !b.isPlayerBullet && b.x == r.0.x + 20.0 && b.y == r.0.y + 40.0
    ensures |r.1| == 1 <==> e.shootTimer - 1.0 <= 0.0 && t.fire < ShootChance(wave, e.kind)
  {
    var moved := e.(x := e.x + t.sine * e.speed * 0.7, y := e.y + e.speed * 0.6);
    var placed := if moved.y > height + 50.0
                  then moved.(y := -50.0 - t.respawnY * 100.0, x := t.respawnX * (width - 40.0), health := Health(e.kind))
                  else moved;
    var timed := placed.(shootTimer := placed.shootTimer - 1.0);
    if timed.shootTimer <= 0.0 then
      var shots := if t.fire < ShootChance(wave, e.kind)
                   then [Bullet(timed.x + 20.0, timed.y + 40.0, enemyBulletSpeed + (if wave > 2 then 0.3 else 0.0), false)]
                   else [];
      (timed.(shootTimer := t.reload * 180.0 + 80.0), shots)
    else (timed, [])
  }

  /** The enemies after the forEach of updateEnemies, in their order. */
  function Turned(es: seq<Enemy>, wave: int, width: real, height: real, ebs: real, ts: seq<Turn>): (r: seq<Enemy>)
    ensures |r| == |es|
  {
    if es == [] then []
    else
      var n := |es| - 1;
      Turned(es[..n], wave, width, height, ebs, ts) + [TurnEnemy(es[n], wave, width, height, ebs, TurnAt(ts, n)).0]
  }

  /** Every enemy takes its own turn. */
  lemma {:induction false} TurnedAt(es: seq<Enemy>, wave: int, width: real, height: real, ebs: real, ts: seq<Turn>)
    ensures forall i :: 0 <= i < |es| ==> Turned(es, wave, width, height, ebs, ts)[i] == TurnEnemy(es[i], wave, width, height, ebs, TurnAt(ts, i)).0
  {
    if es != [] {
      var n := |es| - 1;
      TurnedAt(es[..n], wave, width, height, ebs, ts);
    }
  }

  /** The turns keep every enemy ranked. */
  lemma {:induction false} TurnedRanked(es: seq<Enemy>, wave: int, width: real, height: real, ebs: real, ts: seq<Turn>)
    requires Ranked(es)
    ensures Ranked(Turned(es, wave, width, height, ebs, ts))
  {
    if es != [] {
      var n := |es| - 1;
      TurnedRanked(es[..n], wave, width, height, ebs, ts);
    }
  }

  /** The bullets the forEach of updateEnemies pushes, in enemy order. */
  function Shots(es: seq<Enemy>, wave: int, width: real, height: real, ebs: real, ts: seq<Turn>): (r: seq<Bullet>)
    ensures |r| <= |es|
  {
    if es == [] then []
    else
      var n := |es| - 1;
      Shots(es[..n], wave, width, height, ebs, ts) + TurnEnemy(es[n], wave, width, height, ebs, TurnAt(ts, n)).1
  }

  // ---------------------------------------------------------------------
  // Bullets and explosions

  /** How many of `bs` are player bullets: the filter of updatePlayer. */
  function PlayerCount(bs: seq<Bullet>): (n: nat)
    ensures n <= |bs|
  {
    if bs == [] then 0
    else
      var m := |bs| - 1;
      PlayerCount(bs[..m]) + (if bs[m].isPlayerBullet then 1 else 0)
  }

  /** The enemy bullets of `bs`, in order. */
  function Hostile(bs: seq<Bullet>): (r: seq<Bullet>)
    ensures |r| <= |bs|
  {
    if bs == [] then []
    else
      var m := |bs| - 1;
      Hostile(bs[..m]) + (if bs[m].isPlayerBullet then [] else [bs[m]])
  }

  /** The player bullets of `bs`, in order: what a failed wave keeps. */
  function Friendly(bs: seq<Bullet>): (r: seq<Bullet>)
    ensures |r| <= |bs|
  {
    if bs == [] then []
    else
      var m := |bs| - 1;
      Friendly(bs[..m]) + (if bs[m].isPlayerBullet then [bs[m]] else [])
  }

  /** Counting and filtering distribute over concatenation. */
  lemma BulletsAppend(a: seq<Bullet>, b: seq<Bullet>)
    ensures PlayerCount(a + b) == PlayerCount(a) + PlayerCount(b)
    ensures Hostile(a + b) == Hostile(a) + Hostile(b)
    ensures Friendly(a + b) == Friendly(a) + Friendly(b)
  {
    CountAppend(a, b);
    HostileAppend(a, b);
    FriendlyAppend(a, b);
  }

  lemma {:induction false} CountAppend(a: seq<Bullet>, b: seq<Bullet>)
    ensures PlayerCount(a + b) == PlayerCount(a) + PlayerCount(b)
    decreases |b|
  {
    if b == [] {
      assert a + b == a;
    } else {
      var m := |b| - 1;
      assert (a + b)[..|a| + m] == a + b[..m];
      assert (a + b)[|a| + m] == b[m];
      CountAppend(a, b[..m]);
    }
  }

  lemma {:induction false} HostileAppend(a: seq<Bullet>, b: seq<Bullet>)
    ensures Hostile(a + b) == Hostile(a) + Hostile(b)
    decreases |b|
  {
    if b == [] {
      assert a + b == a;
    } else {
      var m := |b| - 1;
      assert (a + b)[..|a| + m] == a + b[..m];
      assert (a + b)[|a| + m] == b[m];
      HostileAppend(a, b[..m]);
    }
  }

  lemma {:induction false} FriendlyAppend(a: seq<Bullet>, b: seq<Bullet>)
    ensures Friendly(a + b) == Friendly(a) + Friendly(b)
    decreases |b|
  {
    if b == [] {
      assert a + b == a;
    } else {
      var m := |b| - 1;
      assert (a + b)[..|a| + m] == a + b[..m];
      assert (a + b)[|a| + m] == b[m];
      FriendlyAppend(a, b[..m]);
    }
  }

  /** A failed wave keeps exactly the player bullets, all of them. */
  lemma {:induction false} FriendlyCount(bs: seq<Bullet>)
    ensures PlayerCount(Friendly(bs)) == PlayerCount(bs) == |Friendly(bs)|
    ensures Hostile(Friendly(bs)) == []
  {
    if bs != [] {
      var m := |bs| - 1;
      FriendlyCount(bs[..m]);
      BulletsAppend(Friendly(bs[..m]), if bs[m].isPlayerBullet then [bs[m]] else []);
    }
  }

  /** No bullet an enemy fires is a player bullet. */
  lemma {:induction false} ShotsHostile(es: seq<Enemy>, wave: int, width: real, height: real, ebs: real, ts: seq<Turn>)
    ensures PlayerCount(Shots(es, wave, width, height, ebs, ts)) == 0
  {
    if es != [] {
      var n := |es| - 1;
      var t := TurnEnemy(es[n], wave, width, height, ebs, TurnAt(ts, n)).1;
      ShotsHostile(es[..n], wave, width, height, ebs, ts);
      BulletsAppend(Shots(es[..n], wave, width, height, ebs, ts), t);
      if t != [] {
        assert t == [t[0]] && t[0] in t;
        assert t[..0] == [];
      }
    }
  }

  /** A bullet moved by its speed. */
  function Moved(b: Bullet): Bullet { b.(y := b.y + b.speed) }

  /** updateBullets: every bullet moves by its speed and stays only while
      strictly inside 10 px beyond the top and bottom edges. */
  function Advanced(bs: seq<Bullet>, height: real): (r: seq<Bullet>)
    ensures |r| <= |bs|
  {
    if bs == [] then []
    else
      var m := |bs| - 1;
      var b := Moved(bs[m]);
      Advanced(bs[..m], height) + (if -10.0 < b.y < height + 10.0 then [b] else [])
  }

  /** Every moved bullet inside the band survives updateBullets, and every
      survivor is such a bullet. */
  lemma {:induction false} AdvancedMembers(bs: seq<Bullet>, height: real)
    ensures forall i :: 0 <= i < |bs| && -10.0 < Moved(bs[i]).y < height + 10.0 ==> Moved(bs[i]) in Advanced(bs, height)
    ensures forall b :: b in Advanced(bs, height) ==> -10.0 < b.y < height + 10.0 && exists i :: 0 <= i < |bs| && b == Moved(bs[i])
  {
    if bs != [] {
      var m := |bs| - 1;
      var b := Moved(bs[m]);
      var front := Advanced(bs[..m], height);
      AdvancedMembers(bs[..m], height);
      forall c | c in Advanced(bs, height)
        ensures exists i :: 0 <= i < |bs| && c == Moved(bs[i])
      {
        if c in front {
          var i :| 0 <= i < m && c == Moved(bs[..m][i]);
          assert bs[..m][i] == bs[i];
        } else {
          assert c == Moved(bs[m]);
        }
      }
      forall i | 0 <= i < |bs| && -10.0 < Moved(bs[i]).y < height + 10.0
        ensures Moved(bs[i]) in Advanced(bs, height)
      {
        if i < m {
          assert bs[..m][i] == bs[i];
        }
      }
    }
  }

  /** updateBullets never adds player bullets. */
  lemma {:induction false} AdvancedCount(bs: seq<Bullet>, height: real)
    ensures PlayerCount(Advanced(bs, height)) <= PlayerCount(bs)
  {
    if bs != [] {
      var m := |bs| - 1;
      var b := Moved(bs[m]);
      AdvancedCount(bs[..m], height);
      BulletsAppend(Advanced(bs[..m], height), if -10.0 < b.y < height + 10.0 then [b] else []);
      assert [b][..0] == [];
    }
  }

  /** updateExplosions: every timer counts down and only positive ones stay. */
  function Faded(xs: seq<Explosion>): (r: seq<Explosion>)
    ensures |r| <= |xs|
  {
    if xs == [] then []
    else
      var m := |xs| - 1;
      var x := xs[m].(timer := xs[m].timer - 1);
      Faded(xs[..m]) + (if x.timer > 0 then [x] else [])
  }

  /** An explosion survives a frame exactly when its timer was above one. */
  lemma {:induction false} FadedMembers(xs: seq<Explosion>)
    ensures forall x :: x in Faded(xs) <==> x.timer > 0 && x.(timer := x.timer + 1) in xs
  {
    if xs != [] {
      var m := |xs| - 1;
      FadedMembers(xs[..m]);
      assert xs == xs[..m] + [xs[m]];
      forall x: Explosion | x.(timer := x.timer + 1) == xs[m]
        ensures x == xs[m].(timer := xs[m].timer - 1)
      {
      }
    }
  }

  // ---------------------------------------------------------------------
  // Collisions

  predicate Near(b: Bullet, e: Enemy)
  {
    DistSq(Pos(b.x, b.y), Pos(e.x, e.y)) < 625.0
  }

  /** The enemy a player bullet hits: the last one closer than 25 px, or -1
      when there is none. */
  function LastNear(b: Bullet, es: seq<Enemy>): (j: int)
    ensures -1 <= j < |es|
    ensures j >= 0 ==> Near(b, es[j])
    ensures forall k :: j < k < |es| ==> !Near(b, es[k])
  {
    if es == [] then -1
    else if Near(b, es[|es| - 1]) then |es| - 1
    else LastNear(b, es[..|es| - 1])
  }

  /** The inclusive 30 px box around the player. */
  predicate InBox(b: Bullet, p: Pos)
  {
    p.x - 15.0 <= b.x <= p.x + 15.0 && p.y - 15.0 <= b.y <= p.y + 15.0
  }

  /** The enemy bullet that hits the player: the last one inside the box, or
      -1 when there is none. */
  function LastHit(bs: seq<Bullet>, p: Pos): (i: int)
    ensures -1 <= i < |bs|
    ensures i >= 0 ==> !bs[i].isPlayerBullet && InBox(bs[i], p)
    ensures forall k :: i < k < |bs| ==> bs[k].isPlayerBullet || !InBox(bs[k], p)
  {
    if bs == [] then -1
    else if !bs[|bs| - 1].isPlayerBullet && InBox(bs[|bs| - 1], p) then |bs| - 1
    else LastHit(bs[..|bs| - 1], p)
  }

  function Remove<T>(s: seq<T>, j: nat): (r: seq<T>)
    requires j < |s|
    ensures |r| == |s| - 1
    ensures forall k :: 0 <= k < j ==> r[k] == s[k]
    ensures forall k :: j <= k < |r| ==> r[k] == s[k + 1]
  {
    s[..j] + s[j + 1..]
  }

  /** What the player-bullet loop of checkCollisions changes besides the
      bullets. */
  datatype Hits = Hits(enemies: seq<Enemy>, score: real, events: seq<Event>, killed: int, explosions: seq<Explosion>)

  /** One player bullet against the enemies: the hit enemy loses a health
      point and the bullet is spent; an enemy at zero health scores its
      points, counts as a kill, leaves a 20-frame explosion and goes. The
      boolean says whether the bullet was spent. */
  function Strike(b: Bullet, h: Hits, onScore: bool): (r: (bool, Hits))
  {
    if !b.isPlayerBullet then (false, h)
    else
      var j := LastNear(b, h.enemies);
      if j < 0 then (false, h)
      else
        var e := h.enemies[j].(health := h.enemies[j].health - 1);
        if e.health <= 0 then
          (true, Hits(Remove(h.enemies, j), h.score + e.points as real,
                      h.events + ScoreEvent(onScore, h.score + e.points as real),
                      h.killed + 1, h.explosions + [Explosion(e.x, e.y, 20)]))
        else (true, h.(enemies := h.enemies[j := e]))
  }

  /** The player-bullet loop of checkCollisions: the bullets from the last
      to the first, each against the enemies left by the later ones. The
      result holds the bullets that were not spent, in order. */
  function Fire(bs: seq<Bullet>, h: Hits, onScore: bool): (r: (seq<Bullet>, Hits))
  {
    if bs == [] then ([], h)
    else
      var n := |bs| - 1;
      var s := Strike(bs[n], h, onScore);
      var rest := Fire(bs[..n], s.1, onScore);
      (rest.0 + (if s.0 then [] else [bs[n]]), rest.1)
  }

  /** One strike spends only a player bullet, kills at most one enemy, adds
      one explosion per kill and never lowers the score. */
  lemma StrikeFacts(b: Bullet, h: Hits, onScore: bool)
    requires Ranked(h.enemies)
    ensures var r := Strike(b, h, onScore);
      && (r.0 ==> b.isPlayerBullet)
      && Ranked(r.1.enemies)
      && (r.1.killed == h.killed || (r.0 && r.1.killed == h.killed + 1))
      && |r.1.enemies| + r.1.killed == |h.enemies| + h.killed
      && |r.1.explosions| + h.killed == |h.explosions| + r.1.killed
      && r.1.score >= h.score
  {
    var r := Strike(b, h, onScore);
    if b.isPlayerBullet {
      var j := LastNear(b, h.enemies);
      if j >= 0 {
        var e := h.enemies[j].(health := h.enemies[j].health - 1);
        if e.health > 0 {
          assert r.1.enemies == h.enemies[j := e];
          forall k | 0 <= k < |r.1.enemies|
            ensures Rank(r.1.enemies[k])
          {
            if k != j {
              assert r.1.enemies[k] == h.enemies[k];
            }
          }
        }
      }
    }
  }

  /** Over a whole volley: the enemies lost are exactly the kills, each
      with its explosion, and the score never drops. */
  lemma {:induction false} FireCounts(bs: seq<Bullet>, h: Hits, onScore: bool)
    requires Ranked(h.enemies)
    ensures var r := Fire(bs, h, onScore);
      && |r.1.enemies| + r.1.killed == |h.enemies| + h.killed
      && |r.1.explosions| + h.killed == |h.explosions| + r.1.killed
      && r.1.killed >= h.killed && r.1.score >= h.score
      && Ranked(r.1.enemies)
  {
    if bs != [] {
      var n := |bs| - 1;
      StrikeFacts(bs[n], h, onScore);
      FireCounts(bs[..n], Strike(bs[n], h, onScore).1, onScore);
    }
  }

  /** Over a whole volley: enemy bullets all survive, in order, and every
      kill spent a player bullet. */
  lemma {:induction false} FireBullets(bs: seq<Bullet>, h: Hits, onScore: bool)
    requires Ranked(h.enemies)
    ensures var r := Fire(bs, h, onScore);
      && Hostile(r.0) == Hostile(bs)
      && PlayerCount(r.0) + (r.1.killed - h.killed) <= PlayerCount(bs)
  {
    if bs != [] {
      var n := |bs| - 1;
      var s := Strike(bs[n], h, onScore);
      StrikeFacts(bs[n], h, onScore);
      FireBullets(bs[..n], s.1, onScore);
      var rest := Fire(bs[..n], s.1, onScore);
      var tail := if s.0 then [] else [bs[n]];
      CountAppend(rest.0, tail);
      HostileAppend(rest.0, tail);
      assert [bs[n]][..0] == [];
      if s.0 {
        assert rest.0 + tail == rest.0;
      }
    }
  }

  /** The volley loop after the bullets from `i` on: the remaining prefix,
      fired against the current state, followed by the bullets already kept,
      gives the whole volley. */
  predicate Carried(bs: seq<Bullet>, h0: Hits, i: nat, h: Hits, kept: seq<Bullet>, onScore: bool)
    requires i <= |bs|
  {
    var f := Fire(bs[..i], h, onScore);
    Fire(bs, h0, onScore) == (f.0 + kept, f.1)
  }

  /** The volley loop visits bullet `i` next. */
  lemma FireCarry(bs: seq<Bullet>, h0: Hits, i: nat, h: Hits, kept: seq<Bullet>, onScore: bool)
    requires i < |bs| && Carried(bs, h0, i + 1, h, kept, onScore)
    ensures var s := Strike(bs[i], h, onScore);
      Carried(bs, h0, i, s.1, (if s.0 then [] else [bs[i]]) + kept, onScore)
  {
    var s := Strike(bs[i], h, onScore);
    var t := if s.0 then [] else [bs[i]];
    FireStep(bs, i, h, onScore);
    Associative(Fire(bs[..i], s.1, onScore).0, t, kept);
  }

  /** One more bullet of the volley, taken from the end of the unprocessed
      prefix. */
  lemma FireStep(bs: seq<Bullet>, i: nat, h: Hits, onScore: bool)
    requires i < |bs|
    ensures var s := Strike(bs[i], h, onScore);
      var rest := Fire(bs[..i], s.1, onScore);
      Fire(bs[..i + 1], h, onScore) == (rest.0 + (if s.0 then [] else [bs[i]]), rest.1)
  {
    assert bs[..i + 1][..i] == bs[..i];
  }

  /** Removing an enemy bullet leaves the player bullets as they were. */
  lemma RemoveHostile(bs: seq<Bullet>, i: nat)
    requires i < |bs| && !bs[i].isPlayerBullet
    ensures PlayerCount(Remove(bs, i)) == PlayerCount(bs)
  {
    assert bs == bs[..i] + [bs[i]] + bs[i + 1..];
    CountAppend(bs[..i] + [bs[i]], bs[i + 1..]);
    CountAppend(bs[..i], [bs[i]]);
    CountAppend(bs[..i], bs[i + 1..]);
    assert [bs[i]][..0] == [];
  }

  // ---------------------------------------------------------------------
  // The player

  /** A direction is held when one of its two key names is down or its
      touch action is active. */
  predicate Held(keys: set<string>, touch: seq<string>, key: string, alt: string, action: string)
  {
    key in keys || alt in keys || action in touch
  }

  /** The player's playfield: 25 px in from every edge. */
  predicate Inside(p: Pos, width: real, height: real)
  {
    25.0 <= p.x <= width - 25.0 && 25.0 <= p.y <= height - 25.0
  }

  /** The movement of updatePlayer: each held direction moves the player by
      its speed (70% of it vertically), clamped to the playfield. */
  function Steered(p: Pos, speed: real, width: real, height: real, left: bool, right: bool, up: bool, down: bool): (r: Pos)
    ensures !left && !right ==> r.x == p.x
    ensures !up && !down ==> r.y == p.y
  {
    var x1 := if left then Max(25.0, p.x - speed) else p.x;
    var x2 := if right then Min(width - 25.0, x1 + speed) else x1;
    var y1 := if up then Max(25.0, p.y - speed * 0.7) else p.y;
    var y2 := if down then Min(height - 25.0, y1 + speed * 0.7) else y1;
    Pos(x2, y2)
  }

  /** A player inside the playfield stays inside, moves at most its speed
      (70% of it vertically) and only in the held directions. */
  lemma SteeredInside(p: Pos, speed: real, width: real, height: real, left: bool, right: bool, up: bool, down: bool)
    requires speed >= 0.0 && Inside(p, width, height)
    ensures var r := Steered(p, speed, width, height, left, right, up, down);
      && Inside(r, width, height)
      && Abs(r.x - p.x) <= speed && Abs(r.y - p.y) <= speed * 0.7
      && (left && !right ==> r.x <= p.x) && (right && !left ==> r.x >= p.x)
      && (up && !down ==> r.y <= p.y) && (down && !up ==> r.y >= p.y)
  {
  }

  /** The firing rule of updatePlayer: shoot held, the gun cooled down and
      fewer than ten player bullets on screen. */
  predicate Fires(bs: seq<Bullet>, cooldown: int, shoot: bool)
  {
    shoot && cooldown == 0 && PlayerCount(bs) < MaxPlayerBullets
  }

  /** The player's shot: 15 px above the player, flying up at the bullet
      speed. */
  function PlayerShot(p: Pos): (b: Bullet)
    ensures b.isPlayerBullet && b.speed < 0.0
  {
    Bullet(p.x, p.y - 15.0, -BulletSpeed, true)
  }

  /** A shot that obeys the firing rule never lifts the player bullets above
      ten. */
  lemma ShotCapped(bs: seq<Bullet>, p: Pos, cooldown: int, shoot: bool)
    ensures var r := bs + (if Fires(bs, cooldown, shoot) then [PlayerShot(p)] else []);
      && PlayerCount(r) == PlayerCount(bs) + (if Fires(bs, cooldown, shoot) then 1 else 0)
      && (PlayerCount(bs) <= MaxPlayerBullets ==> PlayerCount(r) <= MaxPlayerBullets)
  {
    if Fires(bs, cooldown, shoot) {
      CountAppend(bs, [PlayerShot(p)]);
      assert [PlayerShot(p)][..0] == [];
    } else {
      assert bs + [] == bs;
    }
  }

  // ---------------------------------------------------------------------
  // Waves

  /** The time bonus of nextWave: 50 points per whole ten frames left. */
  function TimeBonus(waveTimer: int): (b: int)
    ensures b % 50 == 0
    ensures waveTimer >= 0 ==> 0 <= b <= 5 * waveTimer
    ensures waveTimer < 10 ==> b <= 0
  {
    (waveTimer / 10) * 50
  }

  /** The three settings nextWave makes harder. */
  datatype Difficulty = Difficulty(playerSpeed: real, enemyBulletSpeed: real, maxWaveTime: int)

  /** The ramp of nextWave: on every even new wave the enemy bullets get a
      quarter faster up to 3, the player a tenth faster up to 6, and the wave
      300 frames shorter down to 2400; odd waves change nothing. */
  function Ramp(d: Difficulty, wave: int): (r: Difficulty)
    ensures wave % 2 != 0 ==> r == d
    ensures d.playerSpeed <= 6.0 ==> d.playerSpeed <= r.playerSpeed <= 6.0
    ensures d.enemyBulletSpeed <= 3.0 ==> d.enemyBulletSpeed <= r.enemyBulletSpeed <= 3.0
    ensures d.maxWaveTime >= 2400 ==> 2400 <= r.maxWaveTime <= d.maxWaveTime
    ensures wave % 2 == 0 && d.maxWaveTime >= 2700 ==> r.maxWaveTime == d.maxWaveTime - 300
  {
    if wave % 2 == 0 then
      Difficulty(Min(d.playerSpeed + 0.1, 6.0), Min(d.enemyBulletSpeed + 0.25, 3.0), MaxInt(2400, d.maxWaveTime - 300))
    else d
  }

  /** The difficulty after waves 2 to `wave` have ramped the initial one. */
  function RampedTo(wave: nat): Difficulty
  {
    if wave <= 1 then Difficulty(4.0, 1.5, 3600) else Ramp(RampedTo(wave - 1), wave)
  }

  /** Wave times shrink by 300 frames every second wave and bottom out at
      2400 frames from wave 8 on. */
  lemma {:induction false} WaveTimeFloor(wave: nat)
    requires wave >= 1
    ensures RampedTo(wave).maxWaveTime == MaxInt(2400, 3600 - 300 * (wave / 2))
  {
    if wave > 1 {
      WaveTimeFloor(wave - 1);
    }
  }

  /** The end of a frame settles one of three ways: the objective met (even
      if the timer ran out on the same frame), the timer run out, or
      neither. */
  datatype Outcome = Advance | Fail | Continue

  function WaveOutcome(killed: int, objective: int, waveTimer: int): (o: Outcome)
    ensures o == Advance <==> killed >= objective
    ensures o == Fail <==> killed < objective && waveTimer <= 0
  {
    if killed >= objective then Advance else if waveTimer <= 0 then Fail else Continue
  }

  // ---------------------------------------------------------------------
  // Search loops

  /** The inner loop of checkCollisions: the enemies from the last to the
      first until one is closer than 25 px to the bullet. */
  method FindTarget(b: Bullet, es: seq<Enemy>) returns (j: int)
    ensures j == LastNear(b, es)
  {
    j := |es| - 1;
    while j >= 0 && !Near(b, es[j])
      invariant -1 <= j < |es|
      invariant forall k :: j < k < |es| ==> !Near(b, es[k])
      decreases j
    {
      j := j - 1;
    }
  }

  /** The enemy-bullet loop of checkCollisions: the bullets from the last to
      the first until an enemy bullet lies in the player's box. */
  method FindHit(bs: seq<Bullet>, p: Pos) returns (i: int)
    ensures i == LastHit(bs, p)
  {
    i := |bs| - 1;
    while i >= 0 && (bs[i].isPlayerBullet || !InBox(bs[i], p))
      invariant -1 <= i < |bs|
      invariant forall k :: i < k < |bs| ==> bs[k].isPlayerBullet || !InBox(bs[k], p)
      decreases i
    {
      i := i - 1;
    }
  }

  /** The forEach of updateEnemies over a copy of the enemies: every enemy
      takes its turn, and the shots are collected in enemy order. */
  method TurnAll(es: seq<Enemy>, wave: int, width: real, height: real, ebs: real, ts: seq<Turn>)
    returns (turned: seq<Enemy>, shots: seq<Bullet>)
    ensures turned == Turned(es, wave, width, height, ebs, ts)
    ensures shots == Shots(es, wave, width, height, ebs, ts)
  {
    turned, shots := [], [];
    var i := 0;
    while i < |es|
      invariant 0 <= i <= |es|
      invariant turned == Turned(es[..i], wave, width, height, ebs, ts)
      invariant shots == Shots(es[..i], wave, width, height, ebs, ts)
    {
      var r := TurnEnemy(es[i], wave, width, height, ebs, TurnAt(ts, i));
      assert es[..i + 1][..i] == es[..i];
      turned := turned + [r.0];
      shots := shots + r.1;
      i := i + 1;
    }
    assert es[..i] == es;
  }

  /** The four clamped moves of updatePlayer, one held direction at a time. */
  method Move(p: Pos, speed: real, width: real, height: real, left: bool, right: bool, up: bool, down: bool)
    returns (q: Pos)
    ensures q == Steered(p, speed, width, height, left, right, up, down)
  {
    q := p;
    if left {
      q := q.(x := Max(25.0, q.x - speed));
    }
    if right {
      q := q.(x := Min(width - 25.0, q.x + speed));
    }
    if up {
      q := q.(y := Max(25.0, q.y - speed * 0.7));
    }
    if down {
      q := q.(y := Min(height - 25.0, q.y + speed * 0.7));
    }
  }

  // ---------------------------------------------------------------------
  // The game

  class Game {
    const width: real
    const height: real
    const engine: Engine
    var player: Pos
    var bullets: seq<Bullet>
    var enemies: seq<Enemy>
    var explosions: seq<Explosion>
    var playerSpeed: real
    var enemyBulletSpeed: real
    var shootCooldown: int
    var wave: int
    var enemiesKilled: int
    var lives: int
    var invulnerabilityTimer: int
    var waveTimer: int
    var maxWaveTime: int
    var waveObjective: int
    var gameState: GameState
    /** Player recentrings scheduled with setTimeout that have not run yet. */
    var pendingRecentres: nat

    /** What every frame keeps: at most ten player bullets, the cooldown
        within its range, the difficulty within its caps, the objective of
        the current wave, the level shown as the wave, and every enemy
        ranked. */
    predicate Valid()
      reads this`bullets, this`shootCooldown, this`enemyBulletSpeed, this`playerSpeed, this`maxWaveTime,
            this`wave, this`waveObjective, this`enemies, engine`level
    {
      && PlayerCount(bullets) <= MaxPlayerBullets
      && 0 <= shootCooldown <= ShootCooldownMax
      && enemyBulletSpeed <= 3.0 && playerSpeed <= 6.0 && maxWaveTime >= 2400
      && wave >= 1 && waveObjective == WaveObjective(wave) && engine.level == wave
      && Ranked(enemies)
    }

    function Current(): Hits
      reads this, engine
    {
      Hits(enemies, engine.score, engine.events, enemiesKilled, explosions)
    }

    constructor (width: real, height: real, draws: seq<EnemyDraw>)
      ensures this.width == width && this.height == height && fresh(engine)
      ensures Valid()
      ensures player == Pos(400.0, 550.0) && bullets == [] && explosions == []
      ensures enemies == Recruits(1, width, draws) && |enemies| == 6
      ensures lives == 5 && wave == 1 && enemiesKilled == 0 && waveTimer == 3600 && waveObjective == 8
      ensures gameState == Playing && !engine.running && engine.score == 0.0 && engine.events == []
    {
      this.width := width;
      this.height := height;
      engine := new Engine();
      player := Pos(400.0, 550.0);
      bullets, enemies, explosions := [], [], [];
      playerSpeed, enemyBulletSpeed := 4.0, 1.5;
      shootCooldown := 0;
      wave, enemiesKilled, lives := 1, 0, 5;
      invulnerabilityTimer := 0;
      waveTimer, maxWaveTime := 3600, 3600;
      waveObjective := 15;
      gameState := Playing;
      pendingRecentres := 0;
      new;
      InitializeWave(draws);
    }

    /** initializeWave: a fresh set of initial enemies, no kills, a full
        timer and the objective of the current wave. */
    method InitializeWave(draws: seq<EnemyDraw>)
      modifies this`enemies, this`enemiesKilled, this`waveTimer, this`waveObjective
      ensures enemies == Recruits(wave, width, draws)
      ensures enemiesKilled == 0 && waveTimer == maxWaveTime && waveObjective == WaveObjective(wave)
    {
      enemies := [];
      enemiesKilled := 0;
      waveTimer := maxWaveTime;
      waveObjective := MaxInt(8, 6 + wave * 2);
      SpawnInitialEnemies(draws);
    }

    /** spawnInitialEnemies: InitialCount(wave) enemies, the i-th from the
        i-th draw, after the existing ones. */
    method SpawnInitialEnemies(draws: seq<EnemyDraw>)
      modifies this`enemies
      ensures enemies == old(enemies) + Recruits(wave, width, draws)
    {
      var n := MaxInt(InitialCount(wave), 0);
      ghost var e0 := enemies;
      for i := 0 to n
        invariant enemies == e0 + Recruits(wave, width, draws)[..i]
      {
        assert Recruits(wave, width, draws)[..i + 1] == Recruits(wave, width, draws)[..i] + [NewEnemy(wave, width, DrawAt(draws, i))];
        SpawnRandomEnemy(DrawAt(draws, i));
      }
      assert Recruits(wave, width, draws)[..n] == Recruits(wave, width, draws);
    }

    method SpawnRandomEnemy(d: EnemyDraw)
      modifies this`enemies
      ensures enemies == old(enemies) + [NewEnemy(wave, width, d)]
    {
      enemies := enemies + [NewEnemy(wave, width, d)];
    }

    /** updatePlayer: move by the held directions, then maybe fire. */
    method UpdatePlayer()
      modifies this`player, this`bullets, this`shootCooldown
      ensures player == Steered(old(player), playerSpeed, width, height,
                                Held(engine.keys, engine.touchControls, "arrowleft", "a", "left"),
                                Held(engine.keys, engine.touchControls, "arrowright", "d", "right"),
                                Held(engine.keys, engine.touchControls, "arrowup", "w", "up"),
                                Held(engine.keys, engine.touchControls, "arrowdown", "s", "down"))
      ensures var fire := Fires(old(bullets), old(shootCooldown), Held(engine.keys, engine.touchControls, " ", "spacebar", "shoot"));
        && bullets == old(bullets) + (if fire then [PlayerShot(player)] else [])
        && shootCooldown == if fire then ShootCooldownMax else old(shootCooldown)
      ensures PlayerCount(old(bullets)) <= MaxPlayerBullets ==> PlayerCount(bullets) <= MaxPlayerBullets
      ensures 0 <= old(shootCooldown) <= ShootCooldownMax ==> 0 <= shootCooldown <= ShootCooldownMax
    {
      var keys, touch := engine.keys, engine.touchControls;
      var left := Held(keys, touch, "arrowleft", "a", "left");
      var right := Held(keys, touch, "arrowright", "d", "right");
      var up := Held(keys, touch, "arrowup", "w", "up");
      var down := Held(keys, touch, "arrowdown", "s", "down");
      var shoot := Held(keys, touch, " ", "spacebar", "shoot");
      player := Move(player, playerSpeed, width, height, left, right, up, down);
      assert player == Steered(old(player), playerSpeed, width, height, left, right, up, down);
      ShotCapped(bullets, player, shootCooldown, shoot);
      if shoot && shootCooldown == 0 {
        if PlayerCount(bullets) < MaxPlayerBullets {
          bullets := bullets + [PlayerShot(player)];
          shootCooldown := ShootCooldownMax;
        } else {
          assert bullets + [] == bullets;
        }
      } else {
        assert bullets + [] == bullets;
      }
    }

    /** updateBullets. */
    method UpdateBullets()
      requires Valid()
      modifies this`bullets
      ensures Valid()
      ensures bullets == Advanced(old(bullets), height)
      ensures PlayerCount(bullets) <= PlayerCount(old(bullets))
    {
      AdvancedCount(bullets, height);
      bullets := Advanced(bullets, height);
    }

    /** updateEnemies: maybe one more enemy, then every enemy's turn; the
        shots join the bullets after the existing ones. */
    method UpdateEnemies(spawnRoll: Unit, spawn: EnemyDraw, turns: seq<Turn>)
      requires Valid()
      modifies this`enemies, this`bullets
      ensures Valid()
      ensures var es := Reinforced(old(enemies), wave, width, spawnRoll, spawn);
        && enemies == Turned(es, wave, width, height, enemyBulletSpeed, turns)
        && bullets == old(bullets) + Shots(es, wave, width, height, enemyBulletSpeed, turns)
      ensures PlayerCount(bullets) == PlayerCount(old(bullets))
    {
      ghost var es := Reinforced(enemies, wave, width, spawnRoll, spawn);
      if |enemies| < MinInt(6 + wave, 12) {
        if spawnRoll < SpawnChance(wave) {
          SpawnRandomEnemy(spawn);
        }
      }
      assert enemies == es;
      var turned, shots := TurnAll(enemies, wave, width, height, enemyBulletSpeed, turns);
      ShotsHostile(es, wave, width, height, enemyBulletSpeed, turns);
      CountAppend(bullets, shots);
      TurnedRanked(es, wave, width, height, enemyBulletSpeed, turns);
      enemies := turned;
      bullets := bullets + shots;
    }

    /** updateExplosions. */
    method UpdateExplosions()
      requires Valid()
      modifies this`explosions
      ensures Valid()
      ensures explosions == Faded(old(explosions))
    {
      explosions := Faded(explosions);
    }
 
    /** The player-bullet loop of checkCollisions, from the last bullet to
        the first; a spent bullet is spliced out at its index, which leaves
        the bullets still to visit where they were. */
    method ShootEnemies()
      modifies this`bullets, this`enemies, this`enemiesKilled, this`explosions, engine`score, engine`events
      ensures (bullets, Current()) == Fire(old(bullets), old(Current()), engine.onScoreChange)
    {
      var bs := bullets;
      ghost var b0 := bs;
      ghost var h0 := Current();
      ghost var cur := h0;
      ghost var kept: seq<Bullet> := [];
      var i := |bs|;
      assert b0[..i] == b0 && Fire(b0, h0, engine.onScoreChange).0 + [] == Fire(b0, h0, engine.onScoreChange).0;
      while i > 0
        invariant 0 <= i <= |b0|
        invariant bs == b0[..i] + kept
        invariant cur == Current()
        invariant Carried(b0, h0, i, cur, kept, engine.onScoreChange)
        decreases i
      {
        i := i - 1;
        FireCarry(b0, h0, i, cur, kept, engine.onScoreChange);
        assert bs[i] == b0[i];
        var spent := Visit(bs[i]);
        if spent {
          assert Remove(bs, i) == b0[..i] + kept;
          bs := Remove(bs, i);
          assert [] + kept == kept;
        } else {
          assert bs == b0[..i] + ([b0[i]] + kept);
        }
        kept := (if spent then [] else [b0[i]]) + kept;
        cur := Current();
      }
      assert b0[..0] == [];
      bullets := bs;
    }

    /** One turn of the player-bullet loop: the bullet `b` against the
        enemies. The caller splices a spent bullet out. */
    method Visit(b: Bullet) returns (spent: bool)
      modifies this`enemies, this`enemiesKilled, this`explosions, engine`score, engine`events
      ensures (spent, Current()) == Strike(b, old(Current()), engine.onScoreChange)
    {
      spent := false;
      if !b.isPlayerBullet {
        return;
      }
      var j := FindTarget(b, enemies);
      if j < 0 {
        return;
      }
      var e := enemies[j].(health := enemies[j].health - 1);
      spent := true;
      if e.health <= 0 {
        engine.UpdateScore(engine.score + e.points as real);
        enemiesKilled := enemiesKilled + 1;
        explosions := explosions + [Explosion(e.x, e.y, 20)];
        enemies := Remove(enemies, j);
      } else {
        enemies := enemies[j := e];
      }
    }

    /** The enemy-bullet loop of checkCollisions: while not invulnerable, the
        last enemy bullet in the player's box is spent, costs a life, grants
        90 frames of invulnerability, leaves a 30-frame explosion at the
        player and schedules the recentring. */
    method CheckPlayerHit()
      modifies this`bullets, this`lives, this`invulnerabilityTimer, this`explosions, this`pendingRecentres
      ensures var i := LastHit(old(bullets), player);
        if old(invulnerabilityTimer) > 0 || i < 0 then
          bullets == old(bullets) && lives == old(lives) && invulnerabilityTimer == old(invulnerabilityTimer)
          && explosions == old(explosions) && pendingRecentres == old(pendingRecentres)
        else
          bullets == Remove(old(bullets), i) && lives == old(lives) - 1 && invulnerabilityTimer == 90
          && explosions == old(explosions) + [Explosion(player.x, player.y, 30)]
          && pendingRecentres == old(pendingRecentres) + 1
      ensures PlayerCount(bullets) == PlayerCount(old(bullets))
    {
      if invulnerabilityTimer > 0 {
        return;
      }
      var i := FindHit(bullets, player);
      if i >= 0 {
        RemoveHostile(bullets, i);
        bullets := Remove(bullets, i);
        lives := lives - 1;
        invulnerabilityTimer := 90;
        explosions := explosions + [Explosion(player.x, player.y, 30)];
        pendingRecentres := pendingRecentres + 1;
      }
    }

    /** checkCollisions: the player's volley, then the enemy fire. */
    method CheckCollisions()
      modifies this`bullets, this`enemies, this`enemiesKilled, this`explosions, this`lives,
               this`invulnerabilityTimer, this`pendingRecentres, engine`score, engine`events
      requires Ranked(enemies)
      ensures Ranked(enemies) && engine.score >= old(engine.score)
      ensures PlayerCount(bullets) <= PlayerCount(old(bullets))
      ensures old(enemiesKilled) <= enemiesKilled && |enemies| + enemiesKilled == old(|enemies| + enemiesKilled)
      ensures old(lives) - 1 <= lives <= old(lives)
      ensures old(invulnerabilityTimer) > 0 ==> lives == old(lives)
      ensures var f := Fire(old(bullets), old(Current()), engine.onScoreChange);
        var i := LastHit(f.0, player);
        && enemies == f.1.enemies && engine.score == f.1.score && engine.events == f.1.events
        && enemiesKilled == f.1.killed
        && if old(invulnerabilityTimer) > 0 || i < 0 then
             bullets == f.0 && lives == old(lives) && invulnerabilityTimer == old(invulnerabilityTimer)
             && explosions == f.1.explosions && pendingRecentres == old(pendingRecentres)
           else
             bullets == Remove(f.0, i) && lives == old(lives) - 1 && invulnerabilityTimer == 90
             && explosions == f.1.explosions + [Explosion(player.x, player.y, 30)]
             && pendingRecentres == old(pendingRecentres) + 1
    {
      FireCounts(bullets, Current(), engine.onScoreChange);
      FireBullets(bullets, Current(), engine.onScoreChange);
      ShootEnemies();
      CheckPlayerHit();
    }

    /** The deferred callback of a hit: the player back to the bottom
        centre. */
    method RecentrePlayer()
      requires pendingRecentres > 0
      modifies this`player, this`pendingRecentres
      ensures player == Pos(width / 2.0, height - 50.0)
      ensures pendingRecentres == old(pendingRecentres) - 1
    {
      player := Pos(width / 2.0, height - 50.0);
      pendingRecentres := pendingRecentres - 1;
    }

    /** nextWave: the wave bonus and time bonus, the next wave reported as
        the level, the difficulty ramp, and a fresh wave. */
    method NextWave(draws: seq<EnemyDraw>)
      modifies engine`score, engine`events, engine`level, this`wave, this`playerSpeed,
               this`enemyBulletSpeed, this`maxWaveTime, this`enemies, this`enemiesKilled,
               this`waveTimer, this`waveObjective
      ensures engine.score == old(engine.score) + (500 * old(wave)) as real + TimeBonus(old(waveTimer)) as real
      ensures engine.events == old(engine.events) + ScoreEvent(engine.onScoreChange, engine.score)
                                                  + LevelEvent(engine.onLevelChange, wave)
      ensures wave == old(wave) + 1 && engine.level == wave
      ensures Difficulty(playerSpeed, enemyBulletSpeed, maxWaveTime)
              == Ramp(Difficulty(old(playerSpeed), old(enemyBulletSpeed), old(maxWaveTime)), wave)
      ensures enemies == Recruits(wave, width, draws)
      ensures enemiesKilled == 0 && waveTimer == maxWaveTime && waveObjective == WaveObjective(wave)
    {
      var timeBonus := (waveTimer / 10) * 50;
      engine.UpdateScore(engine.score + (500 * wave) as real + timeBonus as real);
      wave := wave + 1;
      engine.UpdateLevel(wave);
      if wave % 2 == 0 {
        enemyBulletSpeed := Min(enemyBulletSpeed + 0.25, 3.0);
        playerSpeed := Min(playerSpeed + 0.1, 6.0);
        maxWaveTime := MaxInt(2400, maxWaveTime - 300);
      }
      InitializeWave(draws);
    }

    /** handleTimerFailure: a life and 120 frames of invulnerability; at no
        lives left, game over and a direct onGameEnd call, which throws when
        no handler is set; otherwise the same wave again with a full timer,
        no kills, fresh enemies and only the player bullets. */
    method HandleTimerFailure(draws: seq<EnemyDraw>) returns (thrown: bool)
      modifies this`lives, this`invulnerabilityTimer, this`gameState, this`waveTimer,
               this`enemiesKilled, this`enemies, this`bullets, engine`events
      ensures lives == old(lives) - 1 && invulnerabilityTimer == 120
      ensures lives <= 0 ==>
        && gameState == GameOver && thrown == !engine.onGameEnd
        && engine.events == old(engine.events) + EndEvent(engine.onGameEnd, engine.score, engine.level)
        && waveTimer == old(waveTimer) && enemiesKilled == old(enemiesKilled)
        && enemies == old(enemies) && bullets == old(bullets)
      ensures lives > 0 ==>
        && !thrown && gameState == old(gameState) && engine.events == old(engine.events)
        && waveTimer == maxWaveTime && enemiesKilled == 0
        && enemies == Recruits(wave, width, draws) && bullets == Friendly(old(bullets))
    {
      lives := lives - 1;
      invulnerabilityTimer := 120;
      if lives <= 0 {
        gameState := GameOver;
        thrown := engine.CallGameEnd();
        return;
      }
      thrown := false;
      waveTimer := maxWaveTime;
      enemiesKilled := 0;
      enemies := [];
      bullets := Friendly(bullets);
      SpawnInitialEnemies(draws);
    }
 
    /** The movement and hit half of update: the animation, then the bullet
        and contact checks; the wave, its timer and the game's running state
        are left to the other half. */
    method Engage(d: Draws)
      requires Valid()
      modifies this`player, this`bullets, this`shootCooldown, this`enemies, this`explosions,
               this`enemiesKilled, this`lives, this`invulnerabilityTimer, this`pendingRecentres,
               engine`score, engine`events
      ensures Valid()
      ensures old(lives) - 1 <= lives <= old(lives)
      ensures engine.score >= old(engine.score)
    {
      Animate(d);
      CheckCollisions();
    }

    /** The countdowns of update: the cooldown and invulnerability when
        positive, the wave timer always. */
    method Countdown()
      modifies this`shootCooldown, this`invulnerabilityTimer, this`waveTimer
      ensures shootCooldown == if old(shootCooldown) > 0 then old(shootCooldown) - 1 else old(shootCooldown)
      ensures invulnerabilityTimer == if old(invulnerabilityTimer) > 0 then old(invulnerabilityTimer) - 1 else old(invulnerabilityTimer)
      ensures waveTimer == old(waveTimer) - 1
    {
      if shootCooldown > 0 {
        shootCooldown := shootCooldown - 1;
      }
      if invulnerabilityTimer > 0 {
        invulnerabilityTimer := invulnerabilityTimer - 1;
      }
      waveTimer := waveTimer - 1;
    }

    /** The end of update after the countdowns: the objective (first) or
        the timer settles the wave, then no lives left ends the game unless
        the timer failure threw. */
    method Resolve(draws: seq<EnemyDraw>) returns (thrown: bool)
      requires Valid()
      modifies this`invulnerabilityTimer, this`waveTimer, this`lives, this`gameState,
               this`enemiesKilled, this`enemies, this`bullets, this`wave, this`playerSpeed,
               this`enemyBulletSpeed, this`maxWaveTime, this`waveObjective,
               engine`score, engine`events, engine`level, engine`running
      ensures Valid()
      ensures match WaveOutcome(old(enemiesKilled), old(waveObjective), old(waveTimer))
        case Advance => !thrown && wave == old(wave) + 1 && lives == old(lives) && enemiesKilled == 0 && waveTimer == maxWaveTime
        case Fail => wave == old(wave) && lives == old(lives) - 1 && invulnerabilityTimer == 120
        case Continue => !thrown && wave == old(wave) && lives == old(lives) && waveTimer == old(waveTimer)
                         && enemies == old(enemies) && bullets == old(bullets)
      ensures thrown ==> !engine.onGameEnd && lives <= 0 && engine.running == old(engine.running) && engine.events == old(engine.events)
      ensures !thrown ==> (engine.running <==> old(engine.running) && lives > 0)
      ensures WaveOutcome(old(enemiesKilled), old(waveObjective), old(waveTimer)) == Fail && lives <= 0 && engine.onGameEnd ==>
        engine.events == old(engine.events) + [GameEnded(engine.score, engine.level), GameEnded(engine.score, engine.level)]
    {
      thrown := false;
      if enemiesKilled >= waveObjective {
        NextWave(draws);
      } else if waveTimer <= 0 {
        FriendlyCount(bullets);
        thrown := HandleTimerFailure(draws);
      }
      if !thrown && lives <= 0 {
        engine.EndGame();
      }
    }

    /** The movement half of update: the player, the bullets, the enemies
        and the explosions, in that order. */
    method Animate(d: Draws)
      requires Valid()
      modifies this`player, this`bullets, this`shootCooldown, this`enemies, this`explosions
      ensures Valid()
    {
      UpdatePlayer();
      UpdateBullets();
      UpdateEnemies(d.spawnRoll, d.spawn, d.turns);
      UpdateExplosions();
    }

    /** update: the player, the bullets, the enemies, the explosions, the
        collisions, then the settling of the wave. `thrown` says that the
        direct onGameEnd call threw, which the engine's loop catches. */
    method Update(d: Draws) returns (thrown: bool)
      requires Valid()
      modifies this, engine`score, engine`events, engine`level, engine`running
      ensures Valid()
      ensures wave == old(wave) || wave == old(wave) + 1
      ensures old(lives) - 2 <= lives <= old(lives)
      ensures thrown ==> !engine.onGameEnd && lives <= 0 && engine.running == old(engine.running)
      ensures !thrown ==> (engine.running <==> old(engine.running) && lives > 0)
      ensures wave == old(wave) + 1 ==> enemiesKilled == 0 && waveTimer == maxWaveTime
      ensures wave == old(wave) && old(waveTimer) > 1 ==> waveTimer == old(waveTimer) - 1 && old(lives) - 1 <= lives
    {
      Engage(d);
      Countdown();
      thrown := Resolve(d.wave);
    }

    /** One animation frame of the engine's loop for this game. */
    method Frame(d: Draws)
      requires Valid()
      modifies this, engine`score, engine`events, engine`level, engine`running, engine`frameRequested
      ensures Valid()
      ensures engine.frameRequested == old(engine.running)
      ensures !(old(engine.running) && !old(engine.paused)) ==>
        unchanged(this) && engine.running == old(engine.running) && engine.score == old(engine.score)
        && engine.level == old(engine.level) && engine.events == old(engine.events)
    {
      var wasRunning := engine.running;
      if UpdatePhase in FramePhases(engine.running, engine.paused) {
        var thrown := Update(d);
      }
      engine.ScheduleNext(wasRunning);
    }
  }
}
