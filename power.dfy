/** The power tier machine of the player: which tier a pickup or a hit leads to,
    and which texture set belongs to each tier. */
module Power {

  /** The player's `state`: "small", "big" or "fire". */
  datatype Tier = Small | Big | Fire

  /** The texture directories of the configuration, one per tier. */
  datatype TextureSet = SmallSet | BigSet | FireSet

  /** The order of the tiers: small below big below fire. */
  function Rank(t: Tier): nat
  {
    match t
    case Small => 0
    case Big => 1
    case Fire => 2
  }

  /** The texture set that goes with a tier. */
  function TexturesOf(t: Tier): TextureSet
  {
    match t
    case Small => SmallSet
    case Big => BigSet
    case Fire => FireSet
  }

  /** The tier after picking up a powerup of the given kind. A mushroom only
      lifts a small player; a fire flower always gives fire; any other kind
      leaves the tier as it is. */
  function PowerupTier(t: Tier, kind: string): (r: Tier)
    ensures Rank(t) <= Rank(r)
    ensures r == Fire <==> t == Fire || kind == "fireflower"
    ensures r == Big <==> (t == Small && kind == "mushroom") || (t == Big && kind != "fireflower")
    ensures r == Small <==> t == Small && kind != "mushroom" && kind != "fireflower"
  {
    if kind == "mushroom" then
      if t == Small then Big else t
    else if kind == "fireflower" then
      Fire
    else
      t
  }

  /** The tier after being hurt: fire drops to big, big to small, and small
      stays small (the death of a small player is not handled by the controller). */
  function HurtTier(t: Tier): (r: Tier)
    ensures Rank(r) == if Rank(t) == 0 then 0 else Rank(t) - 1
  {
    match t
    case Small => Small
    case Big => Small
    case Fire => Big
  }

  /** The tier after a sequence of pickups, in order. */
  function PowerupsTier(t: Tier, kinds: seq<string>): Tier
    decreases |kinds|
  {
    if kinds == [] then t else PowerupsTier(PowerupTier(t, kinds[0]), kinds[1..])
  }

  /** The tier after `n` hits in a row. */
  function HurtsTier(t: Tier, n: nat): Tier
    decreases n
  {
    if n == 0 then t else HurtsTier(HurtTier(t), n - 1)
  }

  /** No sequence of pickups ever lowers the tier. */
  lemma {:induction false} PickupsNeverDowngrade(t: Tier, kinds: seq<string>)
    ensures Rank(t) <= Rank(PowerupsTier(t, kinds))
    decreases |kinds|
  {
    if kinds != [] {
      PickupsNeverDowngrade(PowerupTier(t, kinds[0]), kinds[1..]);
    }
  }

  /** A sequence of pickups ends in fire exactly when the player was already
      fire or one of the pickups is a fire flower; in particular a mushroom
      never takes fire away. */
  lemma {:induction false} PickupsReachFire(t: Tier, kinds: seq<string>)
    ensures PowerupsTier(t, kinds) == Fire <==> t == Fire || "fireflower" in kinds
    decreases |kinds|
  {
    if kinds != [] {
      PickupsReachFire(PowerupTier(t, kinds[0]), kinds[1..]);
      assert kinds == [kinds[0]] + kinds[1..];
    }
  }

  /** A sequence of pickups ends small exactly when the player was small and
      no pickup was a mushroom or a fire flower. */
  lemma {:induction false} PickupsStaySmall(t: Tier, kinds: seq<string>)
    ensures PowerupsTier(t, kinds) == Small <==>
      t == Small && "mushroom" !in kinds && "fireflower" !in kinds
    decreases |kinds|
  {
    if kinds != [] {
      PickupsStaySmall(PowerupTier(t, kinds[0]), kinds[1..]);
      PickupsNeverDowngrade(PowerupTier(t, kinds[0]), kinds[1..]);
      assert kinds == [kinds[0]] + kinds[1..];
    }
  }

  /** Each hit lowers the tier by one step until it is small. */
  lemma {:induction false} HitsLowerOneStepEach(t: Tier, n: nat)
    ensures Rank(HurtsTier(t, n)) == if Rank(t) <= n then 0 else Rank(t) - n
    decreases n
  {
    if n > 0 {
      HitsLowerOneStepEach(HurtTier(t), n - 1);
    }
  }
}
