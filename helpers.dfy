/** The free helper functions of the main module: `get_2_mut`, `colorlerp`,
    `particalexplosion` and `enemy_dies`. */
module Helpers {
  import opened Raylib
  import opened Entities

  datatype Option<T> = None | Some(value: T)

  // ---------------------------------------------------------------- get_2_mut

  /** `get_2_mut(xs, a, b)`: two mutable references into one slice. The model
      returns the pair of indices they stand for; it is `None` exactly when
      the indices coincide or either is out of bounds. */
  function Get2Mut<T>(xs: seq<T>, a: nat, b: nat): (r: Option<(nat, nat)>)
    ensures r.None? <==> a == b || a >= |xs| || b >= |xs|
    ensures r.Some? ==> r.value.0 == a && r.value.1 == b
    ensures r.Some? ==> r.value.0 < |xs| && r.value.1 < |xs| && r.value.0 != r.value.1
  {
    if a == b || a >= |xs| || b >= |xs| then None else Some((a, b))
  }

  /** The two references do not alias: writing through the first and then
      through the second leaves both writes in place and nothing else
      changed. */
  lemma Get2MutWritesAreIndependent<T>(xs: seq<T>, a: nat, b: nat, x: T, y: T)
    requires Get2Mut(xs, a, b).Some?
    ensures var ys := xs[a := x][b := y];
      |ys| == |xs| && ys[a] == x && ys[b] == y &&
      forall k :: 0 <= k < |xs| && k != a && k != b ==> ys[k] == xs[k]
  {
  }

  // ---------------------------------------------------------------- colorlerp

  /** Rust's `f32 as u8`: truncation toward zero, saturating at 0 and 255. */
  function ToU8(x: real): (r: U8)
    ensures x < 0.0 ==> r == 0
    ensures x >= 255.0 ==> r == 255
    ensures 0.0 <= x ==> r as real <= x
    ensures x < 256.0 ==> x < r as real + 1.0
  {
    if x < 0.0 then 0 else if x >= 255.0 then 255 else x.Floor
  }

  /** Linear interpolation from `a` to `b`, in `f32` arithmetic in the source. */
  function Lerp(a: real, b: real, t: real): real {
    a + (b - a) * t
  }

  /** One channel of `colorlerp`: `(s + (e - s) * t) as u8`. */
  function LerpChannel(s: U8, e: U8, t: real): (r: U8)
    ensures t == 0.0 ==> r == s
    ensures t == 1.0 ==> r == e
  {
    ToU8(Lerp(s as real, e as real, t))
  }

  function ColorLerp(startingColor: Color, endingColor: Color, t: real): Color {
    Color(
      LerpChannel(startingColor.r, endingColor.r, t),
      LerpChannel(startingColor.g, endingColor.g, t),
      LerpChannel(startingColor.b, endingColor.b, t),
      LerpChannel(startingColor.a, endingColor.a, t))
  }

  function Min(x: int, y: int): int { if x <= y then x else y }

  function Max(x: int, y: int): int { if x <= y then y else x }

  lemma {:induction false} LerpChannelBetween(s: U8, e: U8, t: real)
    requires 0.0 <= t <= 1.0
    ensures Min(s, e) <= LerpChannel(s, e, t) <= Max(s, e)
  {
    if s <= e {
      LerpUp(s as real, e as real, t);
      ToU8Between(Lerp(s as real, e as real, t), s, e);
    } else {
      LerpDown(s as real, e as real, t);
      ToU8Between(Lerp(s as real, e as real, t), e, s);
    }
  }

  /** Interpolating upward with `t` in [0, 1] stays within [a, b]. */
  lemma LerpUp(a: real, b: real, t: real)
    requires 0.0 <= t <= 1.0 && a <= b
    ensures a <= Lerp(a, b, t) <= b
  {
    var d, u := b - a, 1.0 - t;
    MulNonNegative(d, t);
    MulNonNegative(d, u);
    assert d * u == d - d * t;
    assert Lerp(a, b, t) == a + d * t;
  }

  /** Interpolating downward with `t` in [0, 1] stays within [b, a]. */
  lemma LerpDown(a: real, b: real, t: real)
    requires 0.0 <= t <= 1.0 && b < a
    ensures b <= Lerp(a, b, t) <= a
  {
    var d, u := a - b, 1.0 - t;
    MulNonNegative(d, t);
    MulNonNegative(d, u);
    assert d * u == d - d * t;
    assert Lerp(a, b, t) == a - d * t;
  }

  lemma MulNonNegative(x: real, y: real)
    requires 0.0 <= x && 0.0 <= y
    ensures 0.0 <= x * y
  {
  }

  /** Truncation keeps a value between two bytes between them. */
  lemma ToU8Between(x: real, lo: U8, hi: U8)
    requires lo as real <= x <= hi as real
    ensures lo <= ToU8(x) <= hi
  {
  }

  /** `colorlerp` at `t == 0` is the starting colour and at `t == 1` the
      ending colour. */
  lemma ColorLerpEnds(startingColor: Color, endingColor: Color)
    ensures ColorLerp(startingColor, endingColor, 0.0) == startingColor
    ensures ColorLerp(startingColor, endingColor, 1.0) == endingColor
  {
  }

  /** For `t` in [0, 1] every channel of `colorlerp` lies between the
      starting and the ending channel. */
  lemma {:induction false} ColorLerpBetween(startingColor: Color, endingColor: Color, t: real)
    requires 0.0 <= t <= 1.0
    ensures var c := ColorLerp(startingColor, endingColor, t);
      Min(startingColor.r, endingColor.r) <= c.r <= Max(startingColor.r, endingColor.r) &&
      Min(startingColor.g, endingColor.g) <= c.g <= Max(startingColor.g, endingColor.g) &&
      Min(startingColor.b, endingColor.b) <= c.b <= Max(startingColor.b, endingColor.b) &&
      Min(startingColor.a, endingColor.a) <= c.a <= Max(startingColor.a, endingColor.a)
  {
    LerpChannelBetween(startingColor.r, endingColor.r, t);
    LerpChannelBetween(startingColor.g, endingColor.g, t);
    LerpChannelBetween(startingColor.b, endingColor.b, t);
    LerpChannelBetween(startingColor.a, endingColor.a, t);
  }

  // ------------------------------------------------------- particalexplosion

  /** The two random draws behind one explosion particle: `heading` stands
      for `angletovector(θ)` with θ drawn from [-π, π), and `force` for the
      magnitude drawn from [force_min, force_max). */
  datatype Roll = Roll(heading: Vector2, force: real)

  /** The random source: the k-th particle of an explosion uses draw k. */
  type Draws = nat -> Roll

  /** The first `amount` draws lie in the range `gen_range(force_min..force_max)`
      draws from (an empty range would make the source panic), and their
      headings are unit vectors, as `angletovector` returns. */
  predicate DrawsIn(draws: Draws, amount: nat, forceMin: real, forceMax: real) {
    forall k: nat :: k < amount ==> forceMin <= draws(k).force < forceMax && IsUnit(draws(k).heading)
  }

  /** The particle `particalexplosion` pushes for one draw. */
  function ExplosionParticle(pos: Vector2, vel: Vector2, startColor: Color, endingColor: Color,
                             duration: real, roll: Roll): Particle
  {
    Particle(pos, vel.Add(roll.heading.Scale(roll.force)), 5.0, Square, startColor, endingColor, duration, 0.0)
  }

  /** The particles one explosion appends, in push order. */
  function Explosion(pos: Vector2, vel: Vector2, amount: nat, startColor: Color, endingColor: Color,
                     duration: real, draws: Draws): seq<Particle>
  {
    seq(amount, k requires 0 <= k => ExplosionParticle(pos, vel, startColor, endingColor, duration, draws(k)))
  }

  /** An explosion is `amount` particles, all at `pos`, of size 5, square,
      with the given colours and duration, not yet aged, each moving at
      `vel` plus its own random kick. */
  lemma ExplosionParticles(pos: Vector2, vel: Vector2, amount: nat, startColor: Color, endingColor: Color,
                           duration: real, draws: Draws)
    ensures |Explosion(pos, vel, amount, startColor, endingColor, duration, draws)| == amount
    ensures var ps := Explosion(pos, vel, amount, startColor, endingColor, duration, draws);
      forall k :: 0 <= k < amount ==>
        ps[k].pos == pos && ps[k].size == 5.0 && ps[k].shape == Square &&
        ps[k].startingColor == startColor && ps[k].endingColor == endingColor &&
        ps[k].duration == duration && ps[k].time == 0.0 &&
        ps[k].vel == vel.Add(draws(k).heading.Scale(draws(k).force))
  {
    var ps := Explosion(pos, vel, amount, startColor, endingColor, duration, draws);
    forall k | 0 <= k < amount
      ensures ps[k] == ExplosionParticle(pos, vel, startColor, endingColor, duration, draws(k))
    {
    }
  }

  /** Each particle's kick has the speed of its draw's force: it moves at
      distance `force` per second away from the base velocity `vel`. */
  lemma ExplosionKicks(pos: Vector2, vel: Vector2, forceMin: real, forceMax: real, amount: nat,
                       startColor: Color, endingColor: Color, duration: real, draws: Draws)
    requires DrawsIn(draws, amount, forceMin, forceMax)
    ensures var ps := Explosion(pos, vel, amount, startColor, endingColor, duration, draws);
      forall k :: 0 <= k < amount ==> DistanceSquared(ps[k].vel, vel) == draws(k).force * draws(k).force
  {
    var ps := Explosion(pos, vel, amount, startColor, endingColor, duration, draws);
    forall k | 0 <= k < amount
      ensures DistanceSquared(ps[k].vel, vel) == draws(k).force * draws(k).force
    {
      assert ps[k].vel == vel.Add(draws(k).heading.Scale(draws(k).force));
      UnitKick(vel, draws(k).heading, draws(k).force);
    }
  }

  /** `particalexplosion`: pushes `amount` particles onto the pool, one per
      iteration; the particles already there stay unchanged and in place. */
  method ParticleExplosion(particles: seq<Particle>, pos: Vector2, vel: Vector2,
                           forceMin: real, forceMax: real, amount: nat,
                           startColor: Color, endingColor: Color, duration: real,
                           draws: Draws)
    returns (r: seq<Particle>)
    requires DrawsIn(draws, amount, forceMin, forceMax)
    ensures r == particles + Explosion(pos, vel, amount, startColor, endingColor, duration, draws)
  {
    r := particles;
    for k := 0 to amount
      invariant r == particles + Explosion(pos, vel, k, startColor, endingColor, duration, draws)
    {
      var p := ExplosionParticle(pos, vel, startColor, endingColor, duration, draws(k));
      assert Explosion(pos, vel, k + 1, startColor, endingColor, duration, draws)
          == Explosion(pos, vel, k, startColor, endingColor, duration, draws) + [p];
      r := r + [p];
    }
  }

  // --------------------------------------------------------------- enemy_dies

  const DeathStartColor := Color(200, 200, 50, 255)
  const DeathEndColor := Color(255, 0, 0, 100)

  /** `enemy_dies`: a 500-particle explosion, forces in [0, 300), lasting
      0.3 seconds, riding on the dead enemy's velocity `vel`. */
  method EnemyDies(particles: seq<Particle>, pos: Vector2, vel: Vector2, draws: Draws)
    returns (r: seq<Particle>)
    requires DrawsIn(draws, 500, 0.0, 300.0)
    ensures |r| == |particles| + 500 && r[..|particles|] == particles
    ensures forall k :: |particles| <= k < |r| ==>
      r[k].pos == pos && r[k].duration == 0.3 && r[k].time == 0.0 &&
      r[k].startingColor == DeathStartColor && r[k].endingColor == DeathEndColor &&
      r[k].vel == vel.Add(draws(k - |particles|).heading.Scale(draws(k - |particles|).force))
    ensures forall k :: |particles| <= k < |r| ==> DistanceSquared(r[k].vel, vel) < 300.0 * 300.0
    ensures r == particles + Explosion(pos, vel, 500, DeathStartColor, DeathEndColor, 0.3, draws)
  {
    r := ParticleExplosion(particles, pos, vel, 0.0, 300.0, 500, DeathStartColor, DeathEndColor, 0.3, draws);
    ExplosionParticles(pos, vel, 500, DeathStartColor, DeathEndColor, 0.3, draws);
    ExplosionKicks(pos, vel, 0.0, 300.0, 500, DeathStartColor, DeathEndColor, 0.3, draws);
    forall k | |particles| <= k < |r|
      ensures DistanceSquared(r[k].vel, vel) < 300.0 * 300.0
    {
      var f := draws(k - |particles|).force;
      assert r[k] == Explosion(pos, vel, 500, DeathStartColor, DeathEndColor, 0.3, draws)[k - |particles|];
      SquaresOrdered(f, 300.0);
    }
  }
}
