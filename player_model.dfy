/** The player controller's state as a value, and what each of its
    operations does to it. The class in module Controller runs these
    operations in place and is proved to agree with the functions here. */
module PlayerModel {
  import opened Power
  import opened Grace
  import opened Animation

  /** The configuration read once at load time: the sprite scale, the widths
      of the small and big bodies, the starting position, the walk-cycle
      cadence (`dFrames`), the grace period in ticks, and the number of
      textures in a move list. */
  datatype Config = Config(
    scale: real,
    widthSmall: real,
    widthBig: real,
    startX: real,
    startY: real,
    deltaFrames: nat,
    gracePeriod: nat,
    walkTextures: nat)

  /** A configuration is usable when every walk cycle has a texture. */
  predicate ValidConfig(cfg: Config)
  {
    cfg.walkTextures > 0
  }

  /** The material fields a replacement body takes over from the body it replaces. */
  datatype Material = Material(mass: real, friction: real, frictionAir: real, slop: real)

  /** A rectangular body of the physics world: its identifier, centre,
      width and height, velocity and material. */
  datatype Body = Body(id: nat, x: real, y: real, w: real, h: real, vx: real, vy: real, material: Material)

  /** A spawned fireball: the identifier of its body, its starting position and its direction. */
  datatype Fireball = Fireball(id: nat, x: real, y: real, backwards: bool)

  /** The player's standing in the physics world. `world` holds the
      identifiers of the bodies in the world, each as often as it was added
      and not removed; `nextId` is the identifier the physics engine gives to
      the next body it creates; `formerBodies` are the identifiers of the
      bodies the player had before `body`; `w` and `h` are the player's size. */
  datatype Physics = Physics(world: multiset<nat>, nextId: nat, formerBodies: set<nat>, body: Body, w: real, h: real)

  /** Everything the controller reads and writes: `tier` is the player's
      `state`, `facing` its sprite scale and `backwards` flag, `look` its
      sprite texture and frame counter, `clock` the pair (`grace`, `graceP`),
      and `alpha` its sprite's transparency. */
  datatype PlayerState = PlayerState(
    physics: Physics,
    tier: Tier,
    textures: TextureSet,
    accel: real,
    onGround: bool,
    facing: Facing,
    look: Look,
    clock: Clock,
    alpha: real,
    fireballs: seq<Fireball>)

  /** The collision width of a tier: big and fire share the big width. */
  function WidthOf(t: Tier, cfg: Config): real
  {
    if t == Small then cfg.widthSmall else cfg.widthBig
  }

  /** The collision height of a tier: one unit small, two units otherwise. */
  function HeightOf(t: Tier): real
  {
    if t == Small then 1.0 else 2.0
  }

  /** Every identifier in use is below `nextId`, so the next body created is
      new to the world, and the current body is not a former one. */
  predicate IdsBelowNext(p: Physics)
  {
    p.body.id < p.nextId &&
    p.body.id !in p.formerBodies &&
    (forall id | id in p.formerBodies :: id < p.nextId) &&
    (forall id | id in p.world :: id < p.nextId)
  }

  /** What every operation keeps: the sprite is half transparent exactly
      during grace, the texture set is the tier's, the grace counter stays
      within the period, the body has the player's size, and identifiers are
      handed out fresh. */
  predicate Inv(cfg: Config, s: PlayerState)
  {
    s.alpha == (if s.clock.active then 0.5 else 1.0) &&
    s.textures == TexturesOf(s.tier) &&
    Bounded(s.clock, cfg.gracePeriod) &&
    s.physics.body.w == s.physics.w && s.physics.body.h == s.physics.h &&
    IdsBelowNext(s.physics)
  }

  /** The body is in the world exactly once outside grace and not at all
      during it, and none of the player's former bodies is left there. */
  predicate InWorldOnce(s: PlayerState)
  {
    s.physics.world[s.physics.body.id] == (if s.clock.active then 0 else 1) &&
    forall id | id in s.physics.formerBodies :: s.physics.world[id] == 0
  }

  /** The collision size is the one of the current tier. */
  predicate SizeMatchesTier(cfg: Config, s: PlayerState)
  {
    s.physics.w == WidthOf(s.tier, cfg) && s.physics.h == HeightOf(s.tier)
  }

  /** A small player at the starting position, facing forwards, on the
      ground, out of grace, without fireballs, showing the small standing
      texture; its first body gets the identifier `firstId` and the given
      material, and is not put into the world. */
  function Initial(cfg: Config, world: multiset<nat>, firstId: nat, material: Material): (s: PlayerState)
    requires forall id | id in world :: id < firstId
    ensures Inv(cfg, s) && SizeMatchesTier(cfg, s)
    ensures s.tier == Small && s.clock == Clock(false, 0) && s.fireballs == [] && s.onGround
    ensures s.physics.world == world && s.physics.body.id !in world
    ensures s.physics.body.x == cfg.startX && s.physics.body.y == cfg.startY
    ensures s.physics.body.material == material && s.physics.body.vx == 0.0 && s.physics.body.vy == 0.0
    ensures s.accel == 0.0 && s.facing == Facing(cfg.scale, false)
    ensures s.look == Look(Texture(SmallSet, Stand), 0) && s.alpha == 1.0
  {
    PlayerState(
      Physics(world, firstId + 1, {}, Body(firstId, cfg.startX, cfg.startY, cfg.widthSmall, 1.0, 0.0, 0.0, material),
        cfg.widthSmall, 1.0),
      Small, SmallSet, 0.0, true, Facing(cfg.scale, false), Look(Texture(SmallSet, Stand), 0),
      Clock(false, 0), 1.0, [])
  }

  /** A collision with `other` sets the ground flag when `other` lies below
      the body (y grows downwards); nothing else changes. */
  function AfterHit(s: PlayerState, other: Body): (r: PlayerState)
    ensures r.onGround <==> s.onGround || other.y > s.physics.body.y
    ensures r.(onGround := s.onGround) == s
  {
    if other.y > s.physics.body.y then s.(onGround := true) else s
  }

  /** The grace part of a frame update: while in grace the body is held still
      and the counter advances; once it passes the period grace ends, the
      sprite turns opaque and the body goes back into the world. */
  function AfterUpdate(cfg: Config, s: PlayerState): (r: PlayerState)
    ensures r.clock == Tick(s.clock, cfg.gracePeriod)
    ensures !s.clock.active ==> r == s
    ensures s.clock.active ==> r.physics.body == s.physics.body.(vx := 0.0, vy := 0.0)
    ensures r.physics.world ==
      if s.clock.active && !r.clock.active then s.physics.world + multiset{s.physics.body.id} else s.physics.world
    ensures s.clock.active && !r.clock.active ==> r.alpha == 1.0
    ensures r.clock.active ==> r.alpha == s.alpha
    ensures r.physics.(world := s.physics.world, body := s.physics.body) == s.physics
    ensures r.(physics := s.physics, clock := s.clock, alpha := s.alpha) == s
    ensures Inv(cfg, s) ==> Inv(cfg, r)
    ensures Inv(cfg, s) && InWorldOnce(s) ==> InWorldOnce(r)
  {
    if !s.clock.active then s
    else
      var p := s.physics;
      var held := s.(physics := p.(body := p.body.(vx := 0.0, vy := 0.0)), clock := Clock(true, s.clock.elapsed + 1));
      if held.clock.elapsed > cfg.gracePeriod then
        held.(clock := Clock(false, 0), alpha := 1.0,
              physics := held.physics.(world := p.world + multiset{p.body.id}))
      else
        held
  }

  /** Facing and texture for one frame, as `Face` and `Select` give them;
      nothing else changes. */
  function AfterUpdateTexture(cfg: Config, s: PlayerState): (r: PlayerState)
    requires ValidConfig(cfg)
    ensures r.facing == Face(s.facing, s.accel, cfg.scale)
    ensures r.look == Select(s.onGround, s.accel, s.physics.body.vx, s.look.frames, cfg.deltaFrames,
                             s.textures, cfg.walkTextures, s.look.texture)
    ensures r.(facing := s.facing, look := s.look) == s
  {
    s.(facing := Face(s.facing, s.accel, cfg.scale),
       look := Select(s.onGround, s.accel, s.physics.body.vx, s.look.frames, cfg.deltaFrames,
                      s.textures, cfg.walkTextures, s.look.texture))
  }

  /** Swap the body for a new one of width `newW` and height `newH`, moved
      down by `dy`: the old body leaves the world, the new one keeps its x and
      material, starts at rest, gets the next identifier and joins the world. */
  function WithNewBody(p: Physics, newW: real, newH: real, dy: real): (r: Physics)
    ensures r.body == Body(p.nextId, p.body.x, p.body.y + dy, newW, newH, 0.0, 0.0, p.body.material)
    ensures r.w == newW && r.h == newH && r.nextId == p.nextId + 1
    ensures r.world == p.world - multiset{p.body.id} + multiset{r.body.id}
    ensures r.formerBodies == p.formerBodies + {p.body.id}
    ensures IdsBelowNext(p) ==> IdsBelowNext(r) && r.world[r.body.id] == 1
    ensures IdsBelowNext(p) && p.world[p.body.id] <= 1 ==> r.world[p.body.id] == 0
  {
    var body := Body(p.nextId, p.body.x, p.body.y + dy, newW, newH, 0.0, 0.0, p.body.material);
    var r := Physics(p.world - multiset{p.body.id} + multiset{body.id}, p.nextId + 1,
                     p.formerBodies + {p.body.id}, body, newW, newH);
    assert IdsBelowNext(p) ==> p.world[p.nextId] == 0;
    assert forall id | id in r.world :: id in p.world || id == body.id;
    r
  }

  /** Picking up a powerup of the given kind: a small player first gets a big
      body half a unit higher, whatever the kind; then a mushroom makes a small
      player big, a fire flower makes any player fire, and any other kind
      leaves tier and textures as they are. */
  function AfterPowerup(cfg: Config, s: PlayerState, kind: string): (r: PlayerState)
    ensures r.tier == PowerupTier(s.tier, kind)
    ensures r.textures == if r.tier == s.tier && kind != "fireflower" then s.textures else TexturesOf(r.tier)
    ensures r.physics == if s.tier == Small then WithNewBody(s.physics, cfg.widthBig, 2.0, -0.5) else s.physics
    ensures r.(physics := s.physics, tier := s.tier, textures := s.textures) == s
    ensures Inv(cfg, s) ==> Inv(cfg, r)
    ensures Inv(cfg, s) && InWorldOnce(s) && !(s.clock.active && s.tier == Small) ==> InWorldOnce(r)
    ensures SizeMatchesTier(cfg, s) && (s.tier != Small || kind == "mushroom" || kind == "fireflower") ==>
      SizeMatchesTier(cfg, r)
  {
    var grown := if s.tier == Small then s.(physics := WithNewBody(s.physics, cfg.widthBig, 2.0, -0.5)) else s;
    if kind == "mushroom" then
      if grown.tier == Small then grown.(tier := Big, textures := BigSet) else grown
    else if kind == "fireflower" then
      grown.(tier := Fire, textures := FireSet)
    else
      grown
  }

  /** Throwing a fireball: it starts one unit ahead of the body in the facing
      direction, at the body's height, joins the end of the fireball list, and
      its body joins the world. */
  function AfterSpawnFireball(s: PlayerState): (r: PlayerState)
    ensures |r.fireballs| == |s.fireballs| + 1 && r.fireballs[..|s.fireballs|] == s.fireballs
    ensures r.fireballs[|s.fireballs|] ==
      Fireball(s.physics.nextId,
        if s.facing.backwards then s.physics.body.x - 1.0 else s.physics.body.x + 1.0,
        s.physics.body.y, s.facing.backwards)
    ensures r.physics == s.physics.(world := s.physics.world + multiset{s.physics.nextId}, nextId := s.physics.nextId + 1)
    ensures r.(physics := s.physics, fireballs := s.fireballs) == s
    ensures IdsBelowNext(s.physics) ==> IdsBelowNext(r.physics)
    ensures IdsBelowNext(s.physics) && InWorldOnce(s) ==> InWorldOnce(r)
  {
    var p := s.physics;
    var fireball := Fireball(p.nextId, p.body.x + (if s.facing.backwards then -1.0 else 1.0), p.body.y, s.facing.backwards);
    var r := s.(physics := p.(world := p.world + multiset{fireball.id}, nextId := p.nextId + 1),
                fireballs := s.fireballs + [fireball]);
    assert forall id | id in r.physics.world :: id in p.world || id == fireball.id;
    r
  }

  /** The physics after the tier-lowering part of a hit on a player of tier
      `t`: only a big player gets a new, small body, half a unit lower. */
  function HurtPhysics(cfg: Config, t: Tier, p: Physics): Physics
  {
    if t == Big then WithNewBody(p, cfg.widthSmall, 1.0, 0.5) else p
  }

  /** The texture set after a hit on a player of tier `t` showing `current`. */
  function HurtTextures(t: Tier, current: TextureSet): TextureSet
  {
    match t
    case Small => current
    case Big => SmallSet
    case Fire => BigSet
  }

  /** The physics after grace starts: the body is removed from the world once. */
  function Entered(p: Physics): Physics
  {
    p.(world := p.world - multiset{p.body.id})
  }

  /** Taking a hit. A big player shrinks to a small body half a unit lower, a
      fire player becomes big with the same body, and a small player keeps
      tier and body (its death is not handled here). In every case grace
      starts without resetting its counter, the sprite turns half
      transparent, and the body is removed from the world once. */
  function AfterHurt(cfg: Config, s: PlayerState): (r: PlayerState)
    ensures r.tier == HurtTier(s.tier)
    ensures r.textures == if r.tier == s.tier then s.textures else TexturesOf(r.tier)
    ensures r.clock == Clock(true, s.clock.elapsed) && r.alpha == 0.5
    ensures var p := if s.tier == Big then WithNewBody(s.physics, cfg.widthSmall, 1.0, 0.5) else s.physics;
      r.physics == p.(world := p.world - multiset{p.body.id})
    ensures r.(physics := s.physics, tier := s.tier, textures := s.textures, clock := s.clock, alpha := s.alpha) == s
    ensures IdsBelowNext(s.physics) && s.physics.world[s.physics.body.id] <= 1 ==>
      r.physics.world[r.physics.body.id] == 0
    ensures Inv(cfg, s) ==> Inv(cfg, r)
    ensures Inv(cfg, s) && InWorldOnce(s) ==> InWorldOnce(r)
    ensures SizeMatchesTier(cfg, s) ==> SizeMatchesTier(cfg, r)
  {
    s.(physics := Entered(HurtPhysics(cfg, s.tier, s.physics)), tier := HurtTier(s.tier),
       textures := HurtTextures(s.tier, s.textures), clock := Clock(true, s.clock.elapsed), alpha := 0.5)
  }
}
