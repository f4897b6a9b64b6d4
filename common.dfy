/** Small shared vocabulary: positions, the range of Math.random, an optional
    value, and the arithmetic helpers (Math.abs/min/max/floor/round) that the
    games use. */
module Common {

  /** A value returned by Math.random(): a real in [0, 1). */
  type Unit = r: real | 0.0 <= r < 1.0

  datatype Option<T> = None | Some(value: T)

  /** A point in canvas pixels (y grows downward). */
  datatype Pos = Pos(x: real, y: real)

  function Abs(r: real): real { if r < 0.0 then -r else r }

  function Min(a: real, b: real): real { if a <= b then a else b }

  function Max(a: real, b: real): real { if a >= b then a else b }

  function MinInt(a: int, b: int): int { if a <= b then a else b }

  function MaxInt(a: int, b: int): int { if a >= b then a else b }

  /** Squared Euclidean distance; `Math.sqrt(d) < r` is `DistSq < r * r`. */
  function DistSq(a: Pos, b: Pos): real
  {
    (a.x - b.x) * (a.x - b.x) + (a.y - b.y) * (a.y - b.y)
  }

  /** Math.floor on a real. */
  function Floor(r: real): int { r.Floor }

  /** Math.round: rounds half-way cases toward +infinity. */
  function Round(r: real): (k: int)
    ensures r - 0.5 < k as real <= r + 0.5
  {
    (r + 0.5).Floor
  }

  /** Math.floor(u * n) for a random u: an index below n. */
  function IndexOf(u: Unit, n: nat): (k: nat)
    requires n > 0
    ensures k < n
  {
    var p := u * n as real;
    assert 0.0 <= p < n as real;
    p.Floor
  }

  /** The i-th value of an oracle stream of Math.random() results; a stream
      that is too short reads as 0. */
  function Pick(s: seq<Unit>, i: int): Unit
  {
    if 0 <= i < |s| then s[i] else 0.0
  }

  /** The points of `ps` at squared distance `r2` or more from `p`, in their
      order: what a pickup filter keeps. */
  function FarFrom(ps: seq<Pos>, p: Pos, r2: real): (r: seq<Pos>)
    ensures |r| <= |ps|
  {
    if ps == [] then []
    else
      var n := |ps| - 1;
      FarFrom(ps[..n], p, r2) + (if DistSq(p, ps[n]) >= r2 then [ps[n]] else [])
  }

  /** How many points of `ps` are strictly closer than the square root of
      `r2` to `p`: the pickups of one filter pass. */
  function NearCount(ps: seq<Pos>, p: Pos, r2: real): (k: nat)
    ensures k + |FarFrom(ps, p, r2)| == |ps|
  {
    if ps == [] then 0
    else
      var n := |ps| - 1;
      NearCount(ps[..n], p, r2) + (if DistSq(p, ps[n]) >= r2 then 0 else 1)
  }

  /** A filter keeps exactly the far points, and it counts none exactly
      when every point is far. */
  lemma {:induction false} FilterMembers(ps: seq<Pos>, p: Pos, r2: real)
    ensures forall q :: q in FarFrom(ps, p, r2) <==> q in ps && DistSq(p, q) >= r2
    ensures NearCount(ps, p, r2) == 0 <==> forall q :: q in ps ==> DistSq(p, q) >= r2
  {
    if ps != [] {
      var n := |ps| - 1;
      assert ps == ps[..n] + [ps[n]];
      FilterMembers(ps[..n], p, r2);
    }
  }

  /** One more point of a filter pass: it is kept when it is far enough
      away and counted otherwise. */
  lemma FilterStep(ps: seq<Pos>, i: nat, p: Pos, r2: real)
    requires i < |ps|
    ensures FarFrom(ps[..i + 1], p, r2) == FarFrom(ps[..i], p, r2) + (if DistSq(p, ps[i]) >= r2 then [ps[i]] else [])
    ensures NearCount(ps[..i + 1], p, r2) == NearCount(ps[..i], p, r2) + (if DistSq(p, ps[i]) >= r2 then 0 else 1)
  {
    assert ps[..i + 1][..i] == ps[..i];
  }

  /** Concatenation is associative. */
  lemma Associative<T>(a: seq<T>, b: seq<T>, c: seq<T>)
    ensures a + (b + c) == (a + b) + c
  {
  }
}
