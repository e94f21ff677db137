/** The bookkeeping of `main`'s frame loop: the `playing` flag and the game
    clock, the bullet update, and the end-of-frame `retain` passes that drop
    dead enemies and expired bullets. The loop's local variables are the
    fields of a `Game`; one call of `Frame` is one iteration of the loop. */
module Game {
  import opened Raylib
  import opened Entities
  import opened Helpers
  import opened Bullets

  // ------------------------------------------------------------------ retain

  /** `Vec::retain(keep)`: the elements for which `keep` holds, in order. */
  function Retain<T>(s: seq<T>, keep: T -> bool): (r: seq<T>)
    ensures |r| <= |s|
    decreases |s|
  {
    if s == [] then []
    else (if keep(s[0]) then [s[0]] else []) + Retain(s[1..], keep)
  }

  /** `retain` keeps exactly the elements that pass: no survivor fails the
      test and no element that passes is lost. */
  lemma {:induction false} RetainMembers<T>(s: seq<T>, keep: T -> bool)
    ensures forall x :: x in Retain(s, keep) <==> x in s && keep(x)
    decreases |s|
  {
    if s != [] {
      RetainMembers(s[1..], keep);
      assert s == [s[0]] + s[1..];
    }
  }

  /** Counted with multiplicity: every passing element survives as often as
      it occurs, and every failing one is gone. */
  lemma {:induction false} RetainCounts<T>(s: seq<T>, keep: T -> bool, x: T)
    ensures multiset(Retain(s, keep))[x] == if keep(x) then multiset(s)[x] else 0
    decreases |s|
  {
    if s != [] {
      RetainCounts(s[1..], keep, x);
      assert s == [s[0]] + s[1..];
    }
  }

  /** `retain` works element by element from the front, so it keeps the
      relative order of the survivors: filtering a concatenation is the
      concatenation of the filtered parts. */
  lemma {:induction false} RetainAppend<T>(a: seq<T>, b: seq<T>, keep: T -> bool)
    ensures Retain(a + b, keep) == Retain(a, keep) + Retain(b, keep)
    decreases |a|
  {
    if a == [] {
      assert a + b == b;
    } else {
      var head := if keep(a[0]) then [a[0]] else [];
      assert (a + b)[0] == a[0];
      assert (a + b)[1..] == a[1..] + b;
      assert Retain(a + b, keep) == head + Retain(a[1..] + b, keep);
      RetainAppend(a[1..], b, keep);
      assert Retain(a, keep) == head + Retain(a[1..], keep);
    }
  }

  /** A second pass with the same test changes nothing. */
  lemma {:induction false} RetainIdempotent<T>(s: seq<T>, keep: T -> bool)
    ensures Retain(Retain(s, keep), keep) == Retain(s, keep)
    decreases |s|
  {
    if s != [] {
      RetainIdempotent(s[1..], keep);
      RetainAppend(if keep(s[0]) then [s[0]] else [], Retain(s[1..], keep), keep);
      assert [s[0]][1..] == [];
    }
  }

  /** `enemies.retain(|enemy| enemy.health > 0.0)`. */
  predicate EnemyAlive(e: Enemy) {
    e.health > 0.0
  }

  /** `bullets.retain(|bullet| bullet.time < bullet.duration)`. */
  predicate BulletLive(b: Bullet) {
    b.time < b.duration
  }

  /** Filtering keeps every bullet's duration usable. */
  lemma RetainTimed(bullets: seq<Bullet>)
    requires Timed(bullets)
    ensures Timed(Retain(bullets, BulletLive))
  {
    RetainMembers(bullets, BulletLive);
    var r := Retain(bullets, BulletLive);
    forall i | 0 <= i < |r| ensures r[i].duration != 0.0 {
      assert r[i] in bullets;
    }
  }

  /** No part is dead: the test `main` makes at the end of every frame. */
  predicate AllPartsAlive(parts: seq<Part>) {
    forall k :: 0 <= k < |parts| ==> parts[k].health > 0.0
  }

  // -------------------------------------------------------------- the frame

  class Game {
    var player: Player
    var enemies: seq<Enemy>
    var bullets: seq<Bullet>
    var particles: seq<Particle>
    var powerUps: seq<PowerUp>
    var playing: bool
    var time: real

    /** Every bullet has a nonzero duration, so its damage can be faded. */
    ghost predicate Valid()
      reads this
    {
      Timed(bullets)
    }

    /** The state before the first frame: playing, the clock at zero, no
        enemies, bullets or particles, and one repair power-up on the ship. */
    constructor (player: Player, repairTexture: nat)
      ensures Valid()
      ensures this.player == player && enemies == [] && bullets == [] && particles == []
      ensures powerUps == [PowerUp(player.pos, Repair, repairTexture)]
      ensures playing && time == 0.0
    {
      this.player := player;
      enemies := [];
      bullets := [];
      particles := [];
      powerUps := [PowerUp(player.pos, Repair, repairTexture)];
      playing := true;
      time := 0.0;
    }

    /** One iteration of the frame loop, given the frame time `dt`, whether
        Escape was released, and the random draws of the bullet hits. The
        clock runs only if the game was playing when the frame began;
        Escape toggles the flag; the bullets are updated only while playing;
        the two `retain` passes run in every frame; and the game stops
        whenever a part of the ship has no health left at the end. */
    method Frame(dt: real, escapeReleased: bool, rng: HitDraws)
      requires Valid() && HitDrawsIn(rng)
      modifies this
      ensures Valid()
      ensures time == if old(playing) then old(time) + dt else old(time)
      ensures old(playing) != escapeReleased ==>
        var moved := AdvanceAll(old(bullets), dt);
        bullets == Retain(moved, BulletLive) &&
        enemies == Retain(EnemiesAfter(old(enemies), moved), EnemyAlive) &&
        player == old(player).(parts := PartsAfter(old(player).parts, moved)) &&
        particles == old(particles) + Sparks(moved, EnemyTargets(old(enemies)),
                                             PartTargets(old(player).parts), old(player).vel, rng)
      ensures old(playing) == escapeReleased ==>
        bullets == Retain(old(bullets), BulletLive) &&
        enemies == Retain(old(enemies), EnemyAlive) &&
        player == old(player) && particles == old(particles)
      ensures powerUps == old(powerUps)
      ensures forall k :: 0 <= k < |enemies| ==> EnemyAlive(enemies[k])
      ensures forall k :: 0 <= k < |bullets| ==> BulletLive(bullets[k])
      ensures playing <==> (old(playing) != escapeReleased) && AllPartsAlive(player.parts)
    {
      if playing {
        time := time + dt;
      }
      if escapeReleased {
        playing := !playing;
      }
      if playing {
        Update(dt, rng);
      }
      Cull();
      StopIfDamaged();
    }

    /** The update calls made while playing; of them only `update_bullets`
        is part of this model. */
    method Update(dt: real, rng: HitDraws)
      requires Valid() && HitDrawsIn(rng)
      modifies `player, `bullets, `enemies, `particles
      ensures Valid()
      ensures var moved := AdvanceAll(old(bullets), dt);
        bullets == moved &&
        enemies == EnemiesAfter(old(enemies), moved) &&
        player == old(player).(parts := PartsAfter(old(player).parts, moved)) &&
        particles == old(particles) + Sparks(moved, EnemyTargets(old(enemies)),
                                             PartTargets(old(player).parts), old(player).vel, rng)
    {
      player, bullets, enemies, particles := UpdateBullets(player, bullets, enemies, particles, dt, rng);
    }

    /** The two `retain` passes at the end of every frame. */
    method Cull()
      requires Valid()
      modifies `enemies, `bullets
      ensures Valid()
      ensures enemies == Retain(old(enemies), EnemyAlive)
      ensures bullets == Retain(old(bullets), BulletLive)
      ensures forall k :: 0 <= k < |enemies| ==> EnemyAlive(enemies[k])
      ensures forall k :: 0 <= k < |bullets| ==> BulletLive(bullets[k])
    {
      RetainMembers(enemies, EnemyAlive);
      enemies := Retain(enemies, EnemyAlive);
      assert forall k :: 0 <= k < |enemies| ==> enemies[k] in enemies;
      RetainTimed(bullets);
      RetainMembers(bullets, BulletLive);
      bullets := Retain(bullets, BulletLive);
      assert forall k :: 0 <= k < |bullets| ==> bullets[k] in bullets;
    }

    /** The end of the frame: the game stops if any part of the ship has
        health 0 or less, and nothing else changes. */
    method StopIfDamaged()
      modifies `playing
      ensures playing <==> old(playing) && AllPartsAlive(player.parts)
    {
      for k := 0 to |player.parts|
        invariant playing <==> old(playing) && AllPartsAlive(player.parts[..k])
      {
        assert player.parts[..k + 1] == player.parts[..k] + [player.parts[k]];
        if player.parts[k].health <= 0.0 {
          playing := false;
        }
      }
      assert player.parts[..|player.parts|] == player.parts;
    }
  }
}
