/** The player controller: an object whose fields every operation updates in
    place, proved to follow the step functions of PlayerModel. */
module Controller {
  import opened Power
  import opened Grace
  import opened Animation
  import opened PlayerModel

  class Player {
    const cfg: Config
    /** The identifiers of the bodies in the shared physics world. */
    var world: multiset<nat>
    /** The identifier the physics engine gives to the next body it creates. */
    var nextId: nat
    /** The identifiers of the player's earlier bodies. */
    ghost var formerBodies: set<nat>
    var body: Body
    var w: real
    var h: real
    var state: Tier
    var textures: TextureSet
    var accel: real
    var backwards: bool
    var onGround: bool
    var grace: bool
    var graceP: nat
    var frames: nat
    var fireballs: seq<Fireball>
    /** The sprite's texture, horizontal scale and transparency. */
    var texture: Texture
    var scaleX: real
    var alpha: real

    /** The fields as one value. */
    ghost function State(): PlayerState
      reads this
    {
      PlayerState(Physics(world, nextId, formerBodies, body, w, h), state, textures, accel, onGround,
        Facing(scaleX, backwards), Look(texture, frames), Clock(grace, graceP), alpha, fireballs)
    }

    /** The physics fields as one value. */
    ghost function Phys(): Physics
      reads this
    {
      Physics(world, nextId, formerBodies, body, w, h)
    }

    /** A small player at the starting position whose first body gets the
        identifier `firstId` and the given material. */
    constructor (cfg: Config, world: multiset<nat>, firstId: nat, material: Material)
      requires forall id | id in world :: id < firstId
      ensures this.cfg == cfg && State() == Initial(cfg, world, firstId, material)
      ensures Inv(cfg, State())
    {
      this.cfg := cfg;
      this.world := world;
      body := Body(firstId, cfg.startX, cfg.startY, cfg.widthSmall, 1.0, 0.0, 0.0, material);
      nextId := firstId + 1;
      formerBodies := {};
      w := cfg.widthSmall;
      h := 1.0;
      textures := SmallSet;
      texture := Texture(SmallSet, Stand);
      scaleX := cfg.scale;
      alpha := 1.0;
      accel := 0.0;
      backwards := false;
      onGround := true;
      state := Small;
      grace := false;
      graceP := 0;
      frames := 0;
      fireballs := [];
    }

    /** A collision with `other`: landing on something below the player. */
    method Hit(other: Body)
      modifies this`onGround
      ensures onGround == AfterHit(old(State()), other).onGround
    {
      if other.y > body.y {
        onGround := true;
      }
    }

    /** The grace part of the per-frame update. */
    method Update()
      modifies this`body, this`graceP, this`grace, this`alpha, this`world
      ensures var r := AfterUpdate(cfg, old(State()));
        body == r.physics.body && world == r.physics.world && Clock(grace, graceP) == r.clock && alpha == r.alpha
    {
      if grace {
        body := body.(vx := 0.0, vy := 0.0);
        graceP := graceP + 1;
        if graceP > cfg.gracePeriod {
          grace, graceP, alpha, world := false, 0, 1.0, world + multiset{body.id};
        }
      }
    }

    /** The facing and the texture cascade run on every frame. */
    method UpdateTexture()
      requires ValidConfig(cfg)
      modifies this`scaleX, this`backwards, this`texture, this`frames
      ensures var r := AfterUpdateTexture(cfg, old(State()));
        Facing(scaleX, backwards) == r.facing && Look(texture, frames) == r.look
    {
      if accel > 0.0 {
        scaleX := cfg.scale;
        backwards := false;
      } else if accel < 0.0 {
        scaleX := -cfg.scale;
        backwards := true;
      }

      if !onGround {
        texture := Texture(textures, Jump);
      } else {
        if accel != 0.0 {
          if body.vx * accel < 0.0 {
            texture := Texture(textures, Turn);
          } else {
            if cfg.deltaFrames != 0 && frames % cfg.deltaFrames == 0 {
              texture := NextMove(textures, cfg.walkTextures, texture);
            }
          }
        } else {
          frames := 0;
          texture := Texture(textures, Stand);
        }
      }
    }

    /** The body swap shared by `consumePowerup` and `hurt`. */
    method ReplaceBody(newW: real, newH: real, dy: real)
      modifies this`world, this`nextId, this`formerBodies, this`body, this`w, this`h
      ensures Phys() == WithNewBody(old(Phys()), newW, newH, dy)
    {
      var replacement := Body(nextId, body.x, body.y + dy, newW, newH, 0.0, 0.0, body.material);
      world, nextId, formerBodies, body, w, h :=
        world - multiset{body.id} + multiset{replacement.id}, nextId + 1, formerBodies + {body.id}, replacement, newW, newH;
    }

    /** Taking a powerup of the given kind. */
    method ConsumePowerup(kind: string)
      modifies this`world, this`nextId, this`formerBodies, this`body, this`w, this`h, this`state, this`textures
      ensures var r := AfterPowerup(cfg, old(State()), kind);
        Phys() == r.physics && state == r.tier && textures == r.textures
    {
      if state == Small {
        ReplaceBody(cfg.widthBig, 2.0, -0.5);
      }
      if kind == "mushroom" {
        if state == Small {
          state, textures := Big, BigSet;
        }
      } else if kind == "fireflower" {
        state, textures := Fire, FireSet;
      }
    }

    /** Throwing a fireball from the player's position, in the direction it faces. */
    method SpawnFireball()
      modifies this`world, this`nextId, this`fireballs
      ensures var r := AfterSpawnFireball(old(State()));
        world == r.physics.world && nextId == r.physics.nextId && fireballs == r.fireballs
    {
      var fireball := Fireball(nextId, body.x + (if backwards then -1.0 else 1.0), body.y, backwards);
      nextId := nextId + 1;
      fireballs := fireballs + [fireball];
      world := world + multiset{fireball.id};
    }

    /** The tier-lowering part of `hurt`. */
    method LowerTier()
      modifies this`world, this`nextId, this`formerBodies, this`body, this`w, this`h, this`state, this`textures
      ensures Phys() == HurtPhysics(cfg, old(state), old(Phys()))
      ensures state == HurtTier(old(state)) && textures == HurtTextures(old(state), old(textures))
    {
      if state == Small {
        // the death of a small player is handled elsewhere
      } else if state == Big {
        ReplaceBody(cfg.widthSmall, 1.0, 0.5);
        state, textures := Small, SmallSet;
      } else {
        state, textures := Big, BigSet;
      }
    }

    /** The grace-entering part of `hurt`. */
    method EnterGrace()
      modifies this`grace, this`alpha, this`world
      ensures grace && alpha == 0.5 && Phys() == Entered(old(Phys()))
    {
      grace, alpha, world := true, 0.5, world - multiset{body.id};
    }

    /** Being hit by an enemy: the tier drops one step and grace starts. */
    method Hurt()
      modifies this`world, this`nextId, this`formerBodies, this`body, this`w, this`h, this`state, this`textures, this`grace, this`alpha
      ensures var r := AfterHurt(cfg, old(State()));
        Phys() == r.physics && state == r.tier && textures == r.textures && grace == r.clock.active && alpha == r.alpha
    {
      LowerTier();
      EnterGrace();
    }
  }
}
