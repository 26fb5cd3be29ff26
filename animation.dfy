/** The facing and texture selector run by `updateTexture` on every frame. */
module Animation {
  import opened Power

  /** The textures of one texture set: jumping, turning (skidding), the walk
      cycle (`Move(i)` is the i-th texture of the set's move list) and standing. */
  datatype Pose = Jump | Turn | Move(index: nat) | Stand

  /** A texture shown by the sprite: a pose taken from one texture set. */
  datatype Texture = Texture(dir: TextureSet, pose: Pose)

  /** The sprite's horizontal scale and the player's `backwards` flag. */
  datatype Facing = Facing(scaleX: real, backwards: bool)

  /** What the texture cascade writes: the sprite's texture and the frame counter. */
  datatype Look = Look(texture: Texture, frames: nat)

  /** Facing after one frame with horizontal intent `accel`: the sign of a
      non-zero intent decides the direction, and no intent keeps the last one. */
  function Face(f: Facing, accel: real, scale: real): (r: Facing)
    ensures r.backwards <==> accel < 0.0 || (accel == 0.0 && f.backwards)
    ensures accel != 0.0 ==> r.scaleX == if r.backwards then -scale else scale
    ensures accel == 0.0 ==> r == f
  {
    if accel > 0.0 then Facing(scale, false)
    else if accel < 0.0 then Facing(-scale, true)
    else f
  }

  /** Facing after a run of frames with the given intents, oldest first. */
  function FaceAll(f: Facing, accels: seq<real>, scale: real): Facing
    decreases |accels|
  {
    if accels == [] then f
    else Face(FaceAll(f, accels[..|accels| - 1], scale), accels[|accels| - 1], scale)
  }

  /** The facing left by a run of frames is set by the last non-zero intent in
      it, and is the initial facing when every intent was zero. */
  lemma {:induction false} FacingFollowsLastIntent(f: Facing, accels: seq<real>, scale: real)
    ensures (forall i :: 0 <= i < |accels| ==> accels[i] == 0.0) ==> FaceAll(f, accels, scale) == f
    ensures forall j ::
      (0 <= j < |accels| && accels[j] != 0.0 && (forall i :: j < i < |accels| ==> accels[i] == 0.0)) ==>
      FaceAll(f, accels, scale) == Facing(if accels[j] > 0.0 then scale else -scale, accels[j] < 0.0)
  {
    if accels != [] {
      var n := |accels|;
      var prefix := accels[..n - 1];
      FacingFollowsLastIntent(f, prefix, scale);
      assert forall i :: 0 <= i < n - 1 ==> prefix[i] == accels[i];
    }
  }

  /** The texture after `current` in the walk cycle of `dir`, whose move list
      has `count` textures: the next one, wrapping round from the last to the
      first. A texture that is not in the cycle is followed by the first one. */
  function NextMove(dir: TextureSet, count: nat, current: Texture): (r: Texture)
    requires count > 0
    ensures r.dir == dir && r.pose.Move? && r.pose.index < count
    ensures current.dir == dir && current.pose.Move? && current.pose.index + 1 < count ==>
      r.pose.index == current.pose.index + 1
  {
    if current.dir == dir && current.pose.Move? && current.pose.index + 1 < count
    then Texture(dir, Move(current.pose.index + 1))
    else Texture(dir, Move(0))
  }

  /** The texture after `n` advances of the walk cycle. */
  function Advance(dir: TextureSet, count: nat, t: Texture, n: nat): Texture
    requires count > 0
    decreases n
  {
    if n == 0 then t else Advance(dir, count, NextMove(dir, count, t), n - 1)
  }

  /** Advancing `a` times and then `b` times is advancing `a + b` times. */
  lemma {:induction false} AdvanceAdds(dir: TextureSet, count: nat, t: Texture, a: nat, b: nat)
    requires count > 0
    ensures Advance(dir, count, Advance(dir, count, t, a), b) == Advance(dir, count, t, a + b)
    decreases a
  {
    if a > 0 {
      AdvanceAdds(dir, count, NextMove(dir, count, t), a - 1, b);
    }
  }

  /** Within one pass, `n` advances from the i-th walk texture reach the
      (i + n)-th. */
  lemma {:induction false} WalkCycleSteps(dir: TextureSet, count: nat, i: nat, n: nat)
    requires i + n < count
    ensures Advance(dir, count, Texture(dir, Move(i)), n) == Texture(dir, Move(i + n))
    decreases n
  {
    if n > 0 {
      WalkCycleSteps(dir, count, i + 1, n - 1);
    }
  }

  /** The walk cycle has period `count`: after `count` advances from any of
      its textures the sprite shows that texture again. */
  lemma WalkCycleWraps(dir: TextureSet, count: nat, i: nat)
    requires i < count
    ensures Advance(dir, count, Texture(dir, Move(i)), count) == Texture(dir, Move(i))
  {
    var t := Texture(dir, Move(i));
    WalkCycleSteps(dir, count, i, count - 1 - i);
    assert Advance(dir, count, Texture(dir, Move(count - 1)), 1) == Texture(dir, Move(0));
    AdvanceAdds(dir, count, t, count - 1 - i, 1);
    WalkCycleSteps(dir, count, 0, i);
    AdvanceAdds(dir, count, t, count - i, i);
  }

  /** The texture cascade of `updateTexture`; the first rule that applies wins:
      in the air, the jump texture whatever the intent; on the ground pushing
      against the motion, the turn texture; on the ground pushing with the
      motion, the next walk texture on every `dFrames`-th frame and the same
      texture otherwise; on the ground with no intent, the standing texture,
      with the frame counter restarted. */
  function Select(onGround: bool, accel: real, vx: real, frames: nat, dFrames: nat,
                  dir: TextureSet, count: nat, current: Texture): (r: Look)
    requires count > 0
    ensures !onGround ==> r == Look(Texture(dir, Jump), frames)
    ensures onGround && accel != 0.0 && vx * accel < 0.0 ==> r == Look(Texture(dir, Turn), frames)
    ensures onGround && accel != 0.0 && vx * accel >= 0.0 ==>
      r.frames == frames &&
      r.texture == if dFrames != 0 && frames % dFrames == 0 then NextMove(dir, count, current) else current
    ensures onGround && accel == 0.0 ==> r == Look(Texture(dir, Stand), 0)
    ensures r.frames == frames || r.frames == 0
    ensures r.texture == current || r.texture.dir == dir
  {
    if !onGround then
      Look(Texture(dir, Jump), frames)
    else if accel != 0.0 then
      if vx * accel < 0.0 then
        Look(Texture(dir, Turn), frames)
      else if dFrames != 0 && frames % dFrames == 0 then
        Look(NextMove(dir, count, current), frames)
      else
        Look(current, frames)
    else
      Look(Texture(dir, Stand), 0)
  }
}
