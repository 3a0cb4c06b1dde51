/** Projectiles: a shot keeps its target, damage and critical flag; its flight
    (the homing lerp and renormalisation) is float geometry given by `turn`. */
module Projectiles {
  import opened Common
  import opened Enemies

  /** The homing correction: from velocity, position, target position, speed
      and homing strength, the new velocity (length `speed`). */
  type Turn = (Point, Point, Point, real, real) -> Point

  class Projectile {
    var pos: Point
    var vel: Point
    var target: Enemy?
    const damage: real
    const speed: real
    const homing: bool
    const aoeRadius: int
    var homingStrength: real
    const isCritical: bool

    /** A new shot at `pos`; with a target that still has health it is aimed
        at it straight away (`update_movement`), otherwise it stands still. */
    constructor (pos: Point, target: Enemy?, damage: real, speed: real, homing: bool,
                 aoeRadius: int, isCritical: bool, heading: Heading)
      ensures this.pos == pos && this.target == target && this.damage == damage && this.speed == speed
      ensures this.homing == homing && this.aoeRadius == aoeRadius && this.isCritical == isCritical
      ensures homingStrength == 0.1
      ensures vel == if target != null && target.health > 0.0 then heading(pos, target.pos, speed) else Origin
    {
      this.pos := pos;
      this.target := target;
      this.damage := damage;
      this.speed := speed;
      this.homing := homing;
      this.aoeRadius := aoeRadius;
      this.isCritical := isCritical;
      homingStrength := 0.1;
      vel := Origin;
      if target != null && target.health > 0.0 {
        vel := heading(pos, target.pos, speed);
      }
    }

    /** `update_movement`: re-aim at a target that still has health. */
    method UpdateMovement(heading: Heading)
      modifies this
      ensures pos == old(pos) && target == old(target) && homingStrength == old(homingStrength)
      ensures vel == if target != null && target.health > 0.0 then heading(pos, target.pos, speed) else old(vel)
    {
      if target != null && target.health > 0.0 {
        vel := heading(pos, target.pos, speed);
      }
    }

    /** `update`: a homing shot with a living target first turns towards it;
        every shot then moves by its velocity. */
    method Update(turn: Turn)
      modifies this
      ensures target == old(target) && homingStrength == old(homingStrength)
      ensures vel == if homing && target != null && target.health > 0.0
                     then turn(old(vel), old(pos), target.pos, speed, homingStrength)
                     else old(vel)
      ensures pos == Add(old(pos), vel)
    {
      if homing && target != null && target.health > 0.0 {
        vel := turn(vel, pos, target.pos, speed, homingStrength);
      }
      pos := Add(pos, vel);
    }
  }
}
