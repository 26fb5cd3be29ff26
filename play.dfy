/** Sequences of calls to the controller, and what holds across them. */
module Play {
  import opened Power
  import opened Grace
  import opened PlayerModel

  /** One call to the controller: `hit`, the grace part of `update`,
      `updateTexture`, `consumePowerup`, `spawnFireball` or `hurt`; or
      `Input`, the writes the rest of the game makes between calls: the
      controls set the horizontal intent and the frame loop sets the frame
      counter. */
  datatype Event = HitBy(other: Body) | Tick | Animate | Pickup(kind: string) | Throw | Damage
                 | Input(accel: real, frames: nat)

  /** The state after one call. */
  function Step(cfg: Config, s: PlayerState, e: Event): (r: PlayerState)
    requires ValidConfig(cfg)
    ensures Inv(cfg, s) ==> Inv(cfg, r)
  {
    match e
    case HitBy(other) => AfterHit(s, other)
    case Tick => AfterUpdate(cfg, s)
    case Animate => AfterUpdateTexture(cfg, s)
    case Pickup(kind) => AfterPowerup(cfg, s, kind)
    case Throw => AfterSpawnFireball(s)
    case Damage => AfterHurt(cfg, s)
    case Input(accel, frames) => s.(accel := accel, look := s.look.(frames := frames))
  }

  /** The state after a sequence of calls, oldest first. */
  function Run(cfg: Config, s: PlayerState, evs: seq<Event>): PlayerState
    requires ValidConfig(cfg)
    decreases |evs|
  {
    if evs == [] then s else Run(cfg, Step(cfg, s, evs[0]), evs[1..])
  }

  /** `n` frames in a row. */
  function Frames(n: nat): seq<Event>
    decreases n
  {
    if n == 0 then [] else [Tick] + Frames(n - 1)
  }

  /** A pickup of each of the given kinds, in order. */
  function Pickups(kinds: seq<string>): seq<Event>
    decreases |kinds|
  {
    if kinds == [] then [] else [Pickup(kinds[0])] + Pickups(kinds[1..])
  }

  /** `n` hits in a row. */
  function Damages(n: nat): seq<Event>
    decreases n
  {
    if n == 0 then [] else [Damage] + Damages(n - 1)
  }

  /** No powerup is taken while the player is small and in grace: the one
      situation in which a pickup puts a body into the world that the end of
      grace adds a second time. */
  predicate NoSmallPickupInGrace(cfg: Config, s: PlayerState, evs: seq<Event>)
    requires ValidConfig(cfg)
    decreases |evs|
  {
    evs == [] ||
    ((evs[0].Pickup? ==> !(s.clock.active && s.tier == Small)) &&
     NoSmallPickupInGrace(cfg, Step(cfg, s, evs[0]), evs[1..]))
  }

  /** Running two sequences one after the other is running their concatenation. */
  lemma {:induction false} RunAppend(cfg: Config, s: PlayerState, a: seq<Event>, b: seq<Event>)
    requires ValidConfig(cfg)
    ensures Run(cfg, s, a + b) == Run(cfg, Run(cfg, s, a), b)
    decreases |a|
  {
    if a == [] {
      assert a + b == b;
    } else {
      assert (a + b)[0] == a[0];
      assert (a + b)[1..] == a[1..] + b;
      RunAppend(cfg, Step(cfg, s, a[0]), a[1..], b);
    }
  }

  /** The invariant holds after any sequence of calls. */
  lemma {:induction false} RunKeepsInv(cfg: Config, s: PlayerState, evs: seq<Event>)
    requires ValidConfig(cfg) && Inv(cfg, s)
    ensures Inv(cfg, Run(cfg, s, evs))
    decreases |evs|
  {
    if evs != [] {
      RunKeepsInv(cfg, Step(cfg, s, evs[0]), evs[1..]);
    }
  }

  /** As long as no powerup is taken while small and in grace, the player's
      body stays in the world exactly once outside grace and not at all
      during it, and no former body is left behind. */
  lemma {:induction false} RunKeepsInWorldOnce(cfg: Config, s: PlayerState, evs: seq<Event>)
    requires ValidConfig(cfg) && Inv(cfg, s) && InWorldOnce(s) && NoSmallPickupInGrace(cfg, s, evs)
    ensures InWorldOnce(Run(cfg, s, evs))
    decreases |evs|
  {
    if evs != [] {
      RunKeepsInWorldOnce(cfg, Step(cfg, s, evs[0]), evs[1..]);
    }
  }

  /** A sequence without pickups never takes one during grace. */
  lemma {:induction false} NoPickupsIsSafe(cfg: Config, s: PlayerState, evs: seq<Event>)
    requires ValidConfig(cfg)
    requires forall i | 0 <= i < |evs| :: !evs[i].Pickup?
    ensures NoSmallPickupInGrace(cfg, s, evs)
    decreases |evs|
  {
    if evs != [] {
      assert !evs[0].Pickup?;
      NoPickupsIsSafe(cfg, Step(cfg, s, evs[0]), evs[1..]);
    }
  }

  /** A sequence of calls without pickups keeps the body in the world exactly
      once outside grace and not at all during it. */
  lemma NoPickupsKeepInWorldOnce(cfg: Config, s: PlayerState, evs: seq<Event>)
    requires ValidConfig(cfg) && Inv(cfg, s) && InWorldOnce(s)
    requires forall i | 0 <= i < |evs| :: !evs[i].Pickup?
    ensures InWorldOnce(Run(cfg, s, evs))
  {
    NoPickupsIsSafe(cfg, s, evs);
    RunKeepsInWorldOnce(cfg, s, evs);
  }

  /** The collision size keeps matching the tier as long as every powerup
      taken is a mushroom or a fire flower; an unknown kind taken while small
      grows the body but keeps the tier small. */
  lemma {:induction false} RunKeepsSize(cfg: Config, s: PlayerState, evs: seq<Event>)
    requires ValidConfig(cfg) && SizeMatchesTier(cfg, s)
    requires forall i | 0 <= i < |evs| && evs[i].Pickup? :: evs[i].kind == "mushroom" || evs[i].kind == "fireflower"
    ensures SizeMatchesTier(cfg, Run(cfg, s, evs))
    decreases |evs|
  {
    if evs != [] {
      RunKeepsSize(cfg, Step(cfg, s, evs[0]), evs[1..]);
    }
  }

  /** An unknown powerup taken while small gives the big size but keeps the small tier. */
  lemma UnknownPickupBreaksSize(cfg: Config, s: PlayerState, kind: string)
    requires ValidConfig(cfg) && s.tier == Small && kind != "mushroom" && kind != "fireflower"
    ensures var r := Run(cfg, s, [Pickup(kind)]);
      r.tier == Small && r.physics.w == cfg.widthBig && r.physics.h == 2.0 && !SizeMatchesTier(cfg, r)
  {
    assert Run(cfg, s, [Pickup(kind)]) == Run(cfg, AfterPowerup(cfg, s, kind), []);
  }

  /** A run of pickups moves the tier as the tier machine says. */
  lemma {:induction false} PickupsFollowTier(cfg: Config, s: PlayerState, kinds: seq<string>)
    requires ValidConfig(cfg)
    ensures Run(cfg, s, Pickups(kinds)).tier == PowerupsTier(s.tier, kinds)
    decreases |kinds|
  {
    if kinds != [] {
      PickupsFollowTier(cfg, AfterPowerup(cfg, s, kinds[0]), kinds[1..]);
    }
  }

  /** A run of hits moves the tier as the tier machine says. */
  lemma {:induction false} DamagesFollowTier(cfg: Config, s: PlayerState, n: nat)
    requires ValidConfig(cfg)
    ensures Run(cfg, s, Damages(n)).tier == HurtsTier(s.tier, n)
    decreases n
  {
    if n > 0 {
      DamagesFollowTier(cfg, AfterHurt(cfg, s), n - 1);
    }
  }

  /** Outside grace, frames change nothing the grace timer owns, nor anything else. */
  lemma {:induction false} IdleFrames(cfg: Config, s: PlayerState, n: nat)
    requires ValidConfig(cfg) && !s.clock.active
    ensures Run(cfg, s, Frames(n)) == s
    decreases n
  {
    if n > 0 {
      IdleFrames(cfg, s, n - 1);
    }
  }

  /** From a grace window that has run for `k` ticks, the next `n` frames keep
      it open while `n <= gracePeriod - k`; after that it is closed, and the
      body has been added back to the world exactly once. Tier and body
      identity do not change. */
  lemma {:induction false} WaitOutGrace(cfg: Config, s: PlayerState, n: nat)
    requires ValidConfig(cfg) && s.clock.active && Bounded(s.clock, cfg.gracePeriod)
    ensures var r := Run(cfg, s, Frames(n));
      var open := n <= cfg.gracePeriod - s.clock.elapsed;
      r.clock == (if open then Clock(true, s.clock.elapsed + n) else Clock(false, 0)) &&
      r.physics.world == (if open then s.physics.world else s.physics.world + multiset{s.physics.body.id}) &&
      r.physics.body.id == s.physics.body.id &&
      r.tier == s.tier
    decreases n
  {
    if n > 0 {
      var next := AfterUpdate(cfg, s);
      if s.clock.elapsed < cfg.gracePeriod {
        WaitOutGrace(cfg, next, n - 1);
      } else {
        IdleFrames(cfg, next, n - 1);
      }
    }
  }

  /** After a hit, grace lasts for `gracePeriod - k` more frames, where `k`
      is how far an earlier grace window had run (0 outside grace): a second
      hit does not lengthen it. The body is out of the world while grace
      lasts and back exactly once when it ends. */
  lemma HurtThenWait(cfg: Config, s: PlayerState, n: nat)
    requires ValidConfig(cfg) && Inv(cfg, s) && InWorldOnce(s)
    ensures var r := Run(cfg, s, [Damage] + Frames(n));
      (r.clock.active <==> n <= cfg.gracePeriod - s.clock.elapsed) &&
      r.physics.world[r.physics.body.id] == (if r.clock.active then 0 else 1)
  {
    var hurt := AfterHurt(cfg, s);
    assert Run(cfg, s, [Damage]) == hurt;
    RunAppend(cfg, s, [Damage], Frames(n));
    WaitOutGrace(cfg, hurt, n);
  }

  /** A small player that is hit and then takes a mushroom before grace ends
      gets a big body that the pickup puts into the world and the end of
      grace puts in again: once grace is over the body is in the world twice. */
  lemma SmallPickupInGraceDuplicatesBody(cfg: Config, s: PlayerState)
    requires ValidConfig(cfg) && Inv(cfg, s) && InWorldOnce(s) && s.tier == Small && !s.clock.active
    ensures var r := Run(cfg, s, [Damage, Pickup("mushroom")] + Frames(cfg.gracePeriod + 1));
      r.tier == Big && !r.clock.active && r.physics.world[r.physics.body.id] == 2
  {
    var hurt := AfterHurt(cfg, s);
    var grown := AfterPowerup(cfg, hurt, "mushroom");
    assert Run(cfg, s, [Damage, Pickup("mushroom")]) == grown;
    RunAppend(cfg, s, [Damage, Pickup("mushroom")], Frames(cfg.gracePeriod + 1));
    WaitOutGrace(cfg, grown, cfg.gracePeriod + 1);
  }
}
