/** The records of the game, one datatype per struct and enum of the main
    module. `f32` fields are reals, `usize` indices are naturals, texture
    handles are opaque natural numbers and strings are `seq<char>`.
    The source spells particles "partical"; here they are `Particle`. */
module Entities {
  import opened Raylib

  datatype ParticleShape = Square | Circle | RotSquare

  datatype DamageType = Mult | Div

  /** The player parameter a damage link scales (`Partical` keeps the
      source's spelling so that it stays apart from the `Particle` record). */
  datatype PartMod = Partical | Gun | TurnLeft | TurnRight | Speed

  datatype PowerUpType = Shield | Repair

  /** A damageable part of the player's ship: `location` is its offset from
      the ship's centre, `pos` its position in the world. */
  datatype Part = Part(
    pos: Vector2,
    location: Vector2,
    health: real,
    startingHealth: real,
    size: real,
    name: string)

  datatype Particle = Particle(
    pos: Vector2,
    vel: Vector2,
    size: real,
    shape: ParticleShape,
    startingColor: Color,
    endingColor: Color,
    duration: real,
    time: real)

  datatype ParticleEmitter = ParticleEmitter(
    pos: Vector2,
    location: Vector2,
    speedOriginal: real,
    vel: Vector2,
    size: real,
    shape: ParticleShape,
    startingColor: Color,
    endingColor: Color,
    duration: real,
    particleInterval: real,
    time: real,
    speed: real)

  datatype BulletEmitter = BulletEmitter(
    pos: Vector2,
    location: Vector2,
    size: real,
    damage: real,
    friendly: bool,
    duration: real,
    bulletInterval: real,
    time: real)

  /** A damage link: the health of the parts `src` scales parameter `des`
      (at `index`, for the emitter kinds). */
  datatype Damage = Damage(
    src: seq<nat>,
    des: PartMod,
    index: nat,
    damageType: DamageType)

  datatype Player = Player(
    pos: Vector2,
    vel: Vector2,
    dir: Vector2,
    speedOriginal: real,
    leftTurnOriginal: real,
    rightTurnOriginal: real,
    parts: seq<Part>,
    damage: seq<Damage>,
    particleEmitters: seq<ParticleEmitter>,
    bulletEmitters: seq<BulletEmitter>,
    speed: real,
    leftTurn: real,
    rightTurn: real)

  datatype Enemy = Enemy(
    name: string,
    pos: Vector2,
    vel: Vector2,
    dir: Vector2,
    targetpos: Vector2,
    speed: real,
    turningSpeed: real,
    predictive: bool,
    textureScale: real,
    friction: real,
    size: real,
    health: real,
    particleEmitters: seq<ParticleEmitter>,
    bulletEmitters: seq<BulletEmitter>,
    textureId: nat,
    extraTextureIds: seq<nat>)

  /** A projectile: it lives while `time < duration`. */
  datatype Bullet = Bullet(
    pos: Vector2,
    vel: Vector2,
    size: real,
    damage: real,
    friendly: bool,
    duration: real,
    time: real)

  datatype PowerUp = PowerUp(pos: Vector2, powerType: PowerUpType, texture: nat)

  datatype Wave = Wave(
    interval: real,
    minInterval: real,
    doubleSpawnChance: real,
    maxDoubleSpawnChance: real,
    time: real,
    enemy: Enemy)
}
