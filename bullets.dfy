/** `update_bullets`: one frame of bullet motion and bullet hits.

    Every bullet moves by `vel * dt` and ages by `dt`. Right after its own
    move, a friendly bullet damages every enemy and a hostile bullet every
    player part whose centre is closer than `2 * bullet.size + target.size`.
    The damage fades with the bullet's (already advanced) age, and every
    hit pushes a 50-particle explosion. Bullets are never consumed by a
    hit, and a bullet may hit several targets in one frame. */
module Bullets {
  import opened Raylib
  import opened Entities
  import opened Helpers

  // ------------------------------------------------------------ bullet motion

  /** The source divides by a bullet's duration. */
  predicate Timed(bullets: seq<Bullet>) {
    forall i :: 0 <= i < |bullets| ==> bullets[i].duration != 0.0
  }

  /** `bullet.pos += bullet.vel * dt; bullet.time += dt`. */
  function Advance(b: Bullet, dt: real): (r: Bullet)
    ensures r.(pos := b.pos, time := b.time) == b
    ensures r.time - b.time == dt
  {
    b.(pos := b.pos.Add(b.vel.Scale(dt)), time := b.time + dt)
  }

  /** Every bullet moved, in place: the list keeps its length and order, and
      every duration stays usable. */
  function AdvanceAll(bullets: seq<Bullet>, dt: real): (r: seq<Bullet>)
    ensures |r| == |bullets|
    ensures Timed(bullets) ==> Timed(r)
  {
    seq(|bullets|, i requires 0 <= i < |bullets| => Advance(bullets[i], dt))
  }

  // ------------------------------------------------------------- hit testing

  /** What a hit test reads of an enemy or a part: its centre and radius. */
  datatype Target = Target(pos: Vector2, size: real)

  function EnemyTarget(e: Enemy): Target { Target(e.pos, e.size) }

  function PartTarget(p: Part): Target { Target(p.pos, p.size) }

  function EnemyTargets(enemies: seq<Enemy>): seq<Target> {
    seq(|enemies|, j requires 0 <= j < |enemies| => EnemyTarget(enemies[j]))
  }

  function PartTargets(parts: seq<Part>): seq<Target> {
    seq(|parts|, j requires 0 <= j < |parts| => PartTarget(parts[j]))
  }

  /** `bullet.pos.distance_to(target.pos) < bullet.size * 2.0 + target.size`. */
  predicate Hits(b: Bullet, t: Target) {
    CloserThan(b.pos, t.pos, b.size * 2.0 + t.size)
  }

  // ------------------------------------------------------------------ damage

  /** `damage - time / duration * damage`: the damage of a bullet of age
      `time`, fading linearly over its duration. Nothing clamps it. */
  function Faded(b: Bullet): real
    requires b.duration != 0.0
  {
    b.damage - b.time / b.duration * b.damage
  }

  /** What one bullet takes off one target: its faded damage when the bullet
      is on the right side (`friendly` for enemies, hostile for parts) and
      the target is inside its radius, and nothing otherwise. */
  function HitDamage(b: Bullet, friendly: bool, t: Target): real
    requires b.duration != 0.0
  {
    if b.friendly == friendly && Hits(b, t) then Faded(b) else 0.0
  }

  /** The damage a sequence of (already moved) bullets deals to one target. */
  function DamageTaken(bullets: seq<Bullet>, friendly: bool, t: Target): real
    requires Timed(bullets)
    decreases |bullets|
  {
    if bullets == [] then 0.0
    else DamageTaken(bullets[..|bullets| - 1], friendly, t) + HitDamage(bullets[|bullets| - 1], friendly, t)
  }

  /** An enemy after one bullet's pass over the enemy list. */
  function Struck(e: Enemy, b: Bullet): Enemy
    requires b.duration != 0.0
  {
    e.(health := e.health - HitDamage(b, true, EnemyTarget(e)))
  }

  /** A part after one bullet's pass over the part list. */
  function StruckPart(p: Part, b: Bullet): Part
    requires b.duration != 0.0
  {
    p.(health := p.health - HitDamage(b, false, PartTarget(p)))
  }

  function StruckAll(enemies: seq<Enemy>, b: Bullet): seq<Enemy>
    requires b.duration != 0.0
  {
    seq(|enemies|, j requires 0 <= j < |enemies| => Struck(enemies[j], b))
  }

  function StruckParts(parts: seq<Part>, b: Bullet): seq<Part>
    requires b.duration != 0.0
  {
    seq(|parts|, j requires 0 <= j < |parts| => StruckPart(parts[j], b))
  }

  /** An enemy after the whole bullet list: its health less the damage of
      every friendly bullet that hits it; nothing else about it changes. */
  function EnemyAfter(e: Enemy, bullets: seq<Bullet>): Enemy
    requires Timed(bullets)
  {
    e.(health := e.health - DamageTaken(bullets, true, EnemyTarget(e)))
  }

  /** A part after the whole bullet list: its health less the damage of
      every hostile bullet that hits it; nothing else about it changes. */
  function PartAfter(p: Part, bullets: seq<Bullet>): Part
    requires Timed(bullets)
  {
    p.(health := p.health - DamageTaken(bullets, false, PartTarget(p)))
  }

  function EnemiesAfter(enemies: seq<Enemy>, bullets: seq<Bullet>): seq<Enemy>
    requires Timed(bullets)
  {
    seq(|enemies|, j requires 0 <= j < |enemies| => EnemyAfter(enemies[j], bullets))
  }

  function PartsAfter(parts: seq<Part>, bullets: seq<Bullet>): seq<Part>
    requires Timed(bullets)
  {
    seq(|parts|, j requires 0 <= j < |parts| => PartAfter(parts[j], bullets))
  }

  // -------------------------------------------------------------- explosions

  const FriendlyHitStart := Color(255, 0, 0, 255)
  const FriendlyHitEnd := Color(255, 255, 50, 0)
  const HostileHitStart := Color(140, 255, 251, 255)
  const HostileHitEnd := Color(255, 0, 50, 0)

  /** The random draws of the explosion of bullet `i` hitting target `j`. */
  type HitDraws = (nat, nat) -> Draws

  /** Every explosion draws its forces from [0, 600). */
  ghost predicate HitDrawsIn(rng: HitDraws) {
    forall i: nat, j: nat :: DrawsIn(rng(i, j), 50, 0.0, 600.0)
  }

  /** The explosion of one hit: 50 particles at the bullet, riding on the
      player's velocity, lasting 0.1 seconds, red to yellow for a friendly
      bullet and cyan to red for a hostile one. */
  function HitExplosion(b: Bullet, vel: Vector2, draws: Draws): seq<Particle> {
    if b.friendly then Explosion(b.pos, vel, 50, FriendlyHitStart, FriendlyHitEnd, 0.1, draws)
    else Explosion(b.pos, vel, 50, HostileHitStart, HostileHitEnd, 0.1, draws)
  }

  /** The explosions bullet number `i` pushes while it walks the targets. */
  function TargetSparks(i: nat, b: Bullet, targets: seq<Target>, vel: Vector2, rng: HitDraws): seq<Particle>
    decreases |targets|
  {
    if targets == [] then []
    else
      var j := |targets| - 1;
      TargetSparks(i, b, targets[..j], vel, rng) + (if Hits(b, targets[j]) then HitExplosion(b, vel, rng(i, j)) else [])
  }

  /** The explosions a list of (already moved) bullets pushes, bullet by bullet. */
  function Sparks(bullets: seq<Bullet>, enemies: seq<Target>, parts: seq<Target>, vel: Vector2, rng: HitDraws): seq<Particle>
    decreases |bullets|
  {
    if bullets == [] then []
    else
      var i := |bullets| - 1;
      var b := bullets[i];
      Sparks(bullets[..i], enemies, parts, vel, rng) + TargetSparks(i, b, if b.friendly then enemies else parts, vel, rng)
  }

  // ------------------------------------------------------------- the update

  /** The body of the inner loop over enemies: friendly bullet number `i`
      against enemy number `j`. */
  method HitEnemy(i: nat, j: nat, bullet: Bullet, enemy: Enemy, particles: seq<Particle>,
                  vel: Vector2, rng: HitDraws)
    returns (enemy': Enemy, particles': seq<Particle>)
    requires bullet.friendly && bullet.duration != 0.0
    requires HitDrawsIn(rng)
    ensures enemy' == Struck(enemy, bullet)
    ensures particles' == particles +
      if Hits(bullet, EnemyTarget(enemy)) then HitExplosion(bullet, vel, rng(i, j)) else []
  {
    enemy', particles' := enemy, particles;
    if CloserThan(bullet.pos, enemy.pos, bullet.size * 2.0 + enemy.size) {
      enemy' := enemy.(health := enemy.health - (bullet.damage - bullet.time / bullet.duration * bullet.damage));
      assert DrawsIn(rng(i, j), 50, 0.0, 600.0);
      particles' := ParticleExplosion(particles, bullet.pos, vel, 0.0, 600.0, 50,
                                      FriendlyHitStart, FriendlyHitEnd, 0.1, rng(i, j));
    }
  }

  /** The inner loop over enemies of one friendly bullet, bullet number `i`. */
  method DamageEnemies(i: nat, bullet: Bullet, enemies: seq<Enemy>, particles: seq<Particle>,
                       vel: Vector2, rng: HitDraws)
    returns (enemies': seq<Enemy>, particles': seq<Particle>)
    requires bullet.friendly && bullet.duration != 0.0
    requires HitDrawsIn(rng)
    ensures enemies' == StruckAll(enemies, bullet)
    ensures particles' == particles + TargetSparks(i, bullet, EnemyTargets(enemies), vel, rng)
  {
    ghost var targets := EnemyTargets(enemies);
    enemies', particles' := enemies, particles;
    for j := 0 to |enemies|
      invariant |enemies'| == |enemies|
      invariant forall k :: 0 <= k < j ==> enemies'[k] == Struck(enemies[k], bullet)
      invariant forall k :: j <= k < |enemies| ==> enemies'[k] == enemies[k]
      invariant particles' == particles + TargetSparks(i, bullet, targets[..j], vel, rng)
    {
      TargetSparksStep(i, bullet, targets, j, vel, rng);
      ghost var pushed := particles';
      var enemy;
      enemy, particles' := HitEnemy(i, j, bullet, enemies'[j], particles', vel, rng);
      enemies' := enemies'[j := enemy];
      AppendAssociative(particles, TargetSparks(i, bullet, targets[..j], vel, rng), particles'[|pushed|..]);
    }
    assert targets[..|enemies|] == targets;
  }

  /** The body of the inner loop over the player's parts: hostile bullet
      number `i` against part number `j`. */
  method HitPart(i: nat, j: nat, bullet: Bullet, part: Part, particles: seq<Particle>,
                 vel: Vector2, rng: HitDraws)
    returns (part': Part, particles': seq<Particle>)
    requires !bullet.friendly && bullet.duration != 0.0
    requires HitDrawsIn(rng)
    ensures part' == StruckPart(part, bullet)
    ensures particles' == particles +
      if Hits(bullet, PartTarget(part)) then HitExplosion(bullet, vel, rng(i, j)) else []
  {
    part', particles' := part, particles;
    if CloserThan(bullet.pos, part.pos, bullet.size * 2.0 + part.size) {
      part' := part.(health := part.health - (bullet.damage - bullet.time / bullet.duration * bullet.damage));
      assert DrawsIn(rng(i, j), 50, 0.0, 600.0);
      particles' := ParticleExplosion(particles, bullet.pos, vel, 0.0, 600.0, 50,
                                      HostileHitStart, HostileHitEnd, 0.1, rng(i, j));
    }
  }

  /** The inner loop over the player's parts of one hostile bullet, bullet number `i`. */
  method DamageParts(i: nat, bullet: Bullet, parts: seq<Part>, particles: seq<Particle>,
                     vel: Vector2, rng: HitDraws)
    returns (parts': seq<Part>, particles': seq<Particle>)
    requires !bullet.friendly && bullet.duration != 0.0
    requires HitDrawsIn(rng)
    ensures parts' == StruckParts(parts, bullet)
    ensures particles' == particles + TargetSparks(i, bullet, PartTargets(parts), vel, rng)
  {
    ghost var targets := PartTargets(parts);
    parts', particles' := parts, particles;
    for j := 0 to |parts|
      invariant |parts'| == |parts|
      invariant forall k :: 0 <= k < j ==> parts'[k] == StruckPart(parts[k], bullet)
      invariant forall k :: j <= k < |parts| ==> parts'[k] == parts[k]
      invariant particles' == particles + TargetSparks(i, bullet, targets[..j], vel, rng)
    {
      TargetSparksStep(i, bullet, targets, j, vel, rng);
      ghost var pushed := particles';
      var part;
      part, particles' := HitPart(i, j, bullet, parts'[j], particles', vel, rng);
      parts' := parts'[j := part];
      AppendAssociative(particles, TargetSparks(i, bullet, targets[..j], vel, rng), particles'[|pushed|..]);
    }
    assert targets[..|parts|] == targets;
  }

  /** The hit tests of one moved bullet, number `i`: a friendly one against
      every enemy, a hostile one against every part of the player. */
  method Strike(i: nat, bullet: Bullet, player: Player, enemies: seq<Enemy>, particles: seq<Particle>,
                rng: HitDraws)
    returns (player': Player, enemies': seq<Enemy>, particles': seq<Particle>)
    requires bullet.duration != 0.0
    requires HitDrawsIn(rng)
    ensures enemies' == StruckAll(enemies, bullet)
    ensures player' == player.(parts := StruckParts(player.parts, bullet))
    ensures particles' == particles + TargetSparks(i, bullet,
      if bullet.friendly then EnemyTargets(enemies) else PartTargets(player.parts), player.vel, rng)
  {
    player', enemies', particles' := player, enemies, particles;
    if bullet.friendly {
      enemies', particles' := DamageEnemies(i, bullet, enemies, particles, player.vel, rng);
      ObliviousParts(player.parts, bullet);
    }
    if !bullet.friendly {
      var parts;
      parts, particles' := DamageParts(i, bullet, player.parts, particles, player.vel, rng);
      player' := player.(parts := parts);
      ObliviousEnemies(enemies, bullet);
    }
  }

  /** `update_bullets`. The bullet list keeps its length and order and every
      bullet has moved and aged; every enemy and part has lost exactly the
      damage of the bullets whose moved position hits it and is otherwise
      unchanged; the rest of the player is unchanged; and the particle pool
      has grown by the explosions of all hits, in loop order. */
  method UpdateBullets(player: Player, bullets: seq<Bullet>, enemies: seq<Enemy>, particles: seq<Particle>,
                       dt: real, rng: HitDraws)
    returns (player': Player, bullets': seq<Bullet>, enemies': seq<Enemy>, particles': seq<Particle>)
    requires Timed(bullets)
    requires HitDrawsIn(rng)
    ensures bullets' == AdvanceAll(bullets, dt) && Timed(bullets')
    ensures enemies' == EnemiesAfter(enemies, bullets')
    ensures player' == player.(parts := PartsAfter(player.parts, bullets'))
    ensures particles' == particles + Sparks(bullets', EnemyTargets(enemies), PartTargets(player.parts), player.vel, rng)
  {
    ghost var moved := AdvanceAll(bullets, dt);
    ghost var et, pt := EnemyTargets(enemies), PartTargets(player.parts);
    assert Timed(moved);
    player', bullets', enemies', particles' := player, bullets, enemies, particles;
    for i := 0 to |bullets|
      invariant |bullets'| == |bullets|
      invariant forall k :: 0 <= k < i ==> bullets'[k] == moved[k]
      invariant forall k :: i <= k < |bullets| ==> bullets'[k] == bullets[k]
      invariant enemies' == EnemiesAfter(enemies, moved[..i])
      invariant player' == player.(parts := PartsAfter(player.parts, moved[..i]))
      invariant particles' == particles + Sparks(moved[..i], et, pt, player.vel, rng)
    {
      var bullet := bullets'[i];
      bullet := bullet.(pos := bullet.pos.Add(bullet.vel.Scale(dt)));
      bullet := bullet.(time := bullet.time + dt);
      bullets' := bullets'[i := bullet];
      assert bullet == moved[i];
      ghost var before := moved[..i];
      ghost var after := moved[..i + 1];
      StepEnemies(enemies, moved, i);
      StepParts(player.parts, moved, i);
      SparksStep(moved, i, et, pt, player.vel, rng);
      TargetsAfter(enemies, before);
      PartTargetsAfter(player.parts, before);
      assert EnemyTargets(enemies') == et && PartTargets(player'.parts) == pt && player'.vel == player.vel;
      ghost var pushed := particles';
      player', enemies', particles' := Strike(i, bullet, player', enemies', particles', rng);
      ghost var struck := TargetSparks(i, bullet, if bullet.friendly then et else pt, player.vel, rng);
      assert particles' == pushed + struck;
      AppendAssociative(particles, Sparks(before, et, pt, player.vel, rng), struck);
      assert enemies' == EnemiesAfter(enemies, after);
      assert player'.parts == PartsAfter(player.parts, after);
      assert particles' == particles + Sparks(after, et, pt, player.vel, rng);
    }
    assert bullets' == moved;
    assert moved[..|bullets|] == moved;
  }

  // ------------------------------------------------ lemmas behind the update

  lemma AppendAssociative<T>(a: seq<T>, b: seq<T>, c: seq<T>)
    ensures (a + b) + c == a + (b + c)
  {
  }

  /** Adding one more bullet to a prefix adds its hit damage. */
  lemma DamageTakenStep(bullets: seq<Bullet>, i: nat, friendly: bool, t: Target)
    requires Timed(bullets) && i < |bullets|
    ensures DamageTaken(bullets[..i + 1], friendly, t) == DamageTaken(bullets[..i], friendly, t) + HitDamage(bullets[i], friendly, t)
  {
    assert bullets[..i + 1][..i] == bullets[..i];
  }

  lemma StepEnemies(enemies: seq<Enemy>, moved: seq<Bullet>, i: nat)
    requires Timed(moved) && i < |moved|
    ensures EnemiesAfter(enemies, moved[..i + 1]) == StruckAll(EnemiesAfter(enemies, moved[..i]), moved[i])
  {
    forall j | 0 <= j < |enemies| {
      DamageTakenStep(moved, i, true, EnemyTarget(enemies[j]));
    }
  }

  lemma StepParts(parts: seq<Part>, moved: seq<Bullet>, i: nat)
    requires Timed(moved) && i < |moved|
    ensures PartsAfter(parts, moved[..i + 1]) == StruckParts(PartsAfter(parts, moved[..i]), moved[i])
  {
    forall j | 0 <= j < |parts| {
      DamageTakenStep(moved, i, false, PartTarget(parts[j]));
    }
  }

  lemma TargetSparksStep(i: nat, b: Bullet, targets: seq<Target>, j: nat, vel: Vector2, rng: HitDraws)
    requires j < |targets|
    ensures TargetSparks(i, b, targets[..j + 1], vel, rng)
         == TargetSparks(i, b, targets[..j], vel, rng) + (if Hits(b, targets[j]) then HitExplosion(b, vel, rng(i, j)) else [])
  {
    assert targets[..j + 1][..j] == targets[..j];
  }

  lemma SparksStep(moved: seq<Bullet>, i: nat, et: seq<Target>, pt: seq<Target>, vel: Vector2, rng: HitDraws)
    requires i < |moved|
    ensures Sparks(moved[..i + 1], et, pt, vel, rng)
         == Sparks(moved[..i], et, pt, vel, rng) + TargetSparks(i, moved[i], if moved[i].friendly then et else pt, vel, rng)
  {
    assert moved[..i + 1][..i] == moved[..i];
  }

  /** Hits never move an enemy or change its radius. */
  lemma TargetsAfter(enemies: seq<Enemy>, bullets: seq<Bullet>)
    requires Timed(bullets)
    ensures EnemyTargets(EnemiesAfter(enemies, bullets)) == EnemyTargets(enemies)
  {
  }

  lemma PartTargetsAfter(parts: seq<Part>, bullets: seq<Bullet>)
    requires Timed(bullets)
    ensures PartTargets(PartsAfter(parts, bullets)) == PartTargets(parts)
  {
  }

  /** A friendly bullet leaves every part as it is. */
  lemma ObliviousParts(parts: seq<Part>, b: Bullet)
    requires b.friendly && b.duration != 0.0
    ensures StruckParts(parts, b) == parts
  {
  }

  /** A hostile bullet leaves every enemy as it is. */
  lemma ObliviousEnemies(enemies: seq<Enemy>, b: Bullet)
    requires !b.friendly && b.duration != 0.0
    ensures StruckAll(enemies, b) == enemies
  {
  }

  // ------------------------------------------------------ properties of a frame

  /** The faded damage is `damage * (1 - time / duration)`: the full damage
      at age 0, nothing at age `duration`, and a negative amount (a heal)
      once the advanced age is past the duration, since nothing clamps it. */
  lemma FadedDamage(b: Bullet)
    requires b.duration != 0.0
    ensures Faded(b) == b.damage * (1.0 - b.time / b.duration)
    ensures b.time == 0.0 ==> Faded(b) == b.damage
    ensures b.time == b.duration ==> Faded(b) == 0.0
    ensures 0.0 < b.duration < b.time && 0.0 < b.damage ==> Faded(b) < 0.0
  {
    var q := b.time / b.duration;
    assert Faded(b) == b.damage - q * b.damage;
    assert b.damage * (1.0 - q) == b.damage - b.damage * q;
    if b.time == b.duration {
      assert q == 1.0;
    }
    if 0.0 < b.duration < b.time && 0.0 < b.damage {
      assert q * b.duration == b.time;
      assert (q - 1.0) * b.duration == b.time - b.duration;
      assert 1.0 < q;
      assert b.damage < q * b.damage by { MulPositive(q - 1.0, b.damage); }
    }
  }

  lemma MulPositive(x: real, y: real)
    requires 0.0 < x && 0.0 < y
    ensures 0.0 < x * y
  {
  }

  /** The damage of a run of bullets is the sum of the damage of its parts. */
  lemma {:induction false} DamageTakenAppend(xs: seq<Bullet>, ys: seq<Bullet>, friendly: bool, t: Target)
    requires Timed(xs) && Timed(ys)
    ensures Timed(xs + ys)
    ensures DamageTaken(xs + ys, friendly, t) == DamageTaken(xs, friendly, t) + DamageTaken(ys, friendly, t)
    decreases |ys|
  {
    if ys == [] {
      assert xs + ys == xs;
    } else {
      var n := |ys| - 1;
      assert (xs + ys)[..|xs + ys| - 1] == xs + ys[..n];
      DamageTakenAppend(xs, ys[..n], friendly, t);
    }
  }

  /** A target that no bullet of the right side hits takes no damage. */
  lemma {:induction false} Unhit(bullets: seq<Bullet>, friendly: bool, t: Target)
    requires Timed(bullets)
    requires forall k :: 0 <= k < |bullets| ==> !(bullets[k].friendly == friendly && Hits(bullets[k], t))
    ensures DamageTaken(bullets, friendly, t) == 0.0
    decreases |bullets|
  {
    if bullets != [] {
      Unhit(bullets[..|bullets| - 1], friendly, t);
    }
  }

  /** An enemy that no friendly bullet hits after its move comes out of the
      update exactly as it went in; in particular a frame of hostile bullets
      leaves every enemy unchanged. */
  lemma UnhitEnemy(enemies: seq<Enemy>, moved: seq<Bullet>, j: nat)
    requires Timed(moved) && j < |enemies|
    requires forall k :: 0 <= k < |moved| ==> !(moved[k].friendly && Hits(moved[k], EnemyTarget(enemies[j])))
    ensures EnemiesAfter(enemies, moved)[j] == enemies[j]
  {
    Unhit(moved, true, EnemyTarget(enemies[j]));
  }

  /** A part that no hostile bullet hits after its move comes out of the
      update exactly as it went in; in particular a frame of friendly bullets
      leaves every part unchanged. */
  lemma UnhitPart(parts: seq<Part>, moved: seq<Bullet>, j: nat)
    requires Timed(moved) && j < |parts|
    requires forall k :: 0 <= k < |moved| ==> !(!moved[k].friendly && Hits(moved[k], PartTarget(parts[j])))
    ensures PartsAfter(parts, moved)[j] == parts[j]
  {
    Unhit(moved, false, PartTarget(parts[j]));
  }

  /** Part health is not clamped: one hostile bullet of damage 10, fresh,
      sitting on a part of health 1, leaves that part at health -9. */
  lemma PartHealthGoesNegative()
    ensures var part := Part(Vector2(0.0, 0.0), Vector2(0.0, 0.0), 1.0, 1.0, 10.0, "cockpit");
      var bullet := Bullet(Vector2(0.0, 0.0), Vector2(0.0, 0.0), 1.0, 10.0, false, 1.0, 0.0);
      PartsAfter([part], [bullet])[0].health == -9.0
  {
    var part := Part(Vector2(0.0, 0.0), Vector2(0.0, 0.0), 1.0, 1.0, 10.0, "cockpit");
    var bullet := Bullet(Vector2(0.0, 0.0), Vector2(0.0, 0.0), 1.0, 10.0, false, 1.0, 0.0);
    assert [bullet][..0] == [];
    assert Hits(bullet, PartTarget(part));
  }

  /** A friendly bullet of size 1, damage 2 and duration 2, aged 1.5 after
      its move, one unit from a point-sized enemy of health 2 (inside the
      radius 2), leaves it at `2 - 2 * 0.25`. */
  lemma AgedHitExample()
    ensures var e := Enemy("drone", Vector2(0.0, 0.0), Vector2(0.0, 0.0), Vector2(1.0, 0.0), Vector2(0.0, 0.0),
                           0.0, 0.0, false, 1.0, 0.0, 0.0, 2.0, [], [], 0, []);
      var b := Bullet(Vector2(1.0, 0.0), Vector2(0.0, 0.0), 1.0, 2.0, true, 2.0, 1.5);
      EnemiesAfter([e], [b])[0].health == 1.5
  {
    var e := Enemy("drone", Vector2(0.0, 0.0), Vector2(0.0, 0.0), Vector2(1.0, 0.0), Vector2(0.0, 0.0),
                   0.0, 0.0, false, 1.0, 0.0, 0.0, 2.0, [], [], 0, []);
    var b := Bullet(Vector2(1.0, 0.0), Vector2(0.0, 0.0), 1.0, 2.0, true, 2.0, 1.5);
    var t := EnemyTarget(e);
    assert Hits(b, t);
    assert Faded(b) == 0.5;
    OneBullet(b, true, t);
  }

  lemma OneBullet(b: Bullet, friendly: bool, t: Target)
    requires b.duration != 0.0
    ensures DamageTaken([b], friendly, t) == HitDamage(b, friendly, t)
  {
    assert [b][..0] == [];
  }

  // ----------------------------------------------------------- counting hits

  /** The number of targets in `targets` that bullet `b` hits. */
  function TargetHits(b: Bullet, targets: seq<Target>): nat
    decreases |targets|
  {
    if targets == [] then 0
    else TargetHits(b, targets[..|targets| - 1]) + (if Hits(b, targets[|targets| - 1]) then 1 else 0)
  }

  /** The number of (bullet, target) hits of a frame, each bullet against its
      own side's opponents. */
  function HitCount(bullets: seq<Bullet>, enemies: seq<Target>, parts: seq<Target>): nat
    decreases |bullets|
  {
    if bullets == [] then 0
    else
      var b := bullets[|bullets| - 1];
      HitCount(bullets[..|bullets| - 1], enemies, parts) + TargetHits(b, if b.friendly then enemies else parts)
  }

  lemma {:induction false} TargetSparksCount(i: nat, b: Bullet, targets: seq<Target>, vel: Vector2, rng: HitDraws)
    ensures |TargetSparks(i, b, targets, vel, rng)| == 50 * TargetHits(b, targets)
    decreases |targets|
  {
    if targets != [] {
      TargetSparksCount(i, b, targets[..|targets| - 1], vel, rng);
    }
  }

  /** Every hit pushes exactly 50 particles. */
  lemma {:induction false} SparksCount(bullets: seq<Bullet>, enemies: seq<Target>, parts: seq<Target>,
                                       vel: Vector2, rng: HitDraws)
    ensures |Sparks(bullets, enemies, parts, vel, rng)| == 50 * HitCount(bullets, enemies, parts)
    decreases |bullets|
  {
    if bullets != [] {
      var i := |bullets| - 1;
      SparksCount(bullets[..i], enemies, parts, vel, rng);
      TargetSparksCount(i, bullets[i], if bullets[i].friendly then enemies else parts, vel, rng);
    }
  }

  // --------------------------------------------------------- what a spark is

  /** A particle of the explosion of bullet `b`: at the bullet's (moved)
      position, size 5, square, lasting 0.1 seconds, not yet aged, in the
      colours of the bullet's side, and moving at `vel` plus a kick of speed
      less than 600. */
  predicate IsSpark(p: Particle, b: Bullet, vel: Vector2) {
    p.pos == b.pos && p.size == 5.0 && p.shape == Square && p.duration == 0.1 && p.time == 0.0 &&
    p.startingColor == (if b.friendly then FriendlyHitStart else HostileHitStart) &&
    p.endingColor == (if b.friendly then FriendlyHitEnd else HostileHitEnd) &&
    DistanceSquared(p.vel, vel) < 600.0 * 600.0
  }

  lemma HitExplosionSparks(b: Bullet, vel: Vector2, draws: Draws)
    requires DrawsIn(draws, 50, 0.0, 600.0)
    ensures forall p :: p in HitExplosion(b, vel, draws) ==> IsSpark(p, b, vel)
  {
    var ps := HitExplosion(b, vel, draws);
    if b.friendly {
      ExplosionParticles(b.pos, vel, 50, FriendlyHitStart, FriendlyHitEnd, 0.1, draws);
      ExplosionKicks(b.pos, vel, 0.0, 600.0, 50, FriendlyHitStart, FriendlyHitEnd, 0.1, draws);
    } else {
      ExplosionParticles(b.pos, vel, 50, HostileHitStart, HostileHitEnd, 0.1, draws);
      ExplosionKicks(b.pos, vel, 0.0, 600.0, 50, HostileHitStart, HostileHitEnd, 0.1, draws);
    }
    forall p | p in ps ensures IsSpark(p, b, vel) {
      var k :| 0 <= k < |ps| && ps[k] == p;
      SquaresOrdered(draws(k).force, 600.0);
    }
  }

  lemma {:induction false} TargetSparksAreSparks(i: nat, b: Bullet, targets: seq<Target>, vel: Vector2, rng: HitDraws)
    requires HitDrawsIn(rng)
    ensures forall p :: p in TargetSparks(i, b, targets, vel, rng) ==> IsSpark(p, b, vel)
    decreases |targets|
  {
    if targets != [] {
      var j := |targets| - 1;
      TargetSparksAreSparks(i, b, targets[..j], vel, rng);
      assert DrawsIn(rng(i, j), 50, 0.0, 600.0);
      HitExplosionSparks(b, vel, rng(i, j));
    }
  }

  /** Every particle a frame of bullets pushes is a spark of one of them. */
  lemma {:induction false} SparksAreSparks(bullets: seq<Bullet>, enemies: seq<Target>, parts: seq<Target>,
                                           vel: Vector2, rng: HitDraws)
    requires HitDrawsIn(rng)
    ensures forall p :: p in Sparks(bullets, enemies, parts, vel, rng) ==>
      exists b :: b in bullets && IsSpark(p, b, vel)
    decreases |bullets|
  {
    if bullets != [] {
      var i := |bullets| - 1;
      var b := bullets[i];
      SparksAreSparks(bullets[..i], enemies, parts, vel, rng);
      TargetSparksAreSparks(i, b, if b.friendly then enemies else parts, vel, rng);
      forall p | p in Sparks(bullets, enemies, parts, vel, rng)
        ensures exists c :: c in bullets && IsSpark(p, c, vel)
      {
        if p in Sparks(bullets[..i], enemies, parts, vel, rng) {
          var c :| c in bullets[..i] && IsSpark(p, c, vel);
          assert c in bullets;
        } else {
          assert IsSpark(p, b, vel);
        }
      }
    }
  }
}
