/**
 * GhostController: the mirror runner. Each Update polls the relay once; a
 * released sample sets the velocity that carries the ghost from where it is
 * to the sample's position in exactly one sync interval. FixedUpdate hands
 * that velocity to the rigid body.
 */
module Ghost {
  import opened Vectors
  import opened SyncMessages
  import opened Sync

  /** The velocity rule of Update: cover the gap to `target` in `interval` seconds. */
  function TargetVelocity(target: Vec3, current: Vec3, interval: real): (v: Vec3)
    requires interval != 0.0
    ensures Add(current, Scale(v, interval)) == target
  {
    Div(Sub(target, current), interval)
  }

  class GhostController {
    var velocity: Vec3
    var localPosition: Vec3
    /** rigidBody.velocity */
    var bodyVelocity: Vec3
    /** Whether a sample has reached this ghost yet. */
    ghost var received: bool

    /** Until a sample arrives the ghost has the default zero velocity and does not move. */
    ghost predicate Valid()
      reads this
    {
      !received ==> velocity == Zero && bodyVelocity == Zero
    }

    constructor (start: Vec3)
      ensures Valid() && !received
      ensures velocity == Zero && bodyVelocity == Zero && localPosition == start
    {
      velocity, bodyVelocity := Zero, Zero;
      localPosition := start;
      received := false;
    }

    /** Update at clock `now`. */
    method Update(now: real, relay: SyncManager)
      requires Valid() && relay.Valid()
      modifies this, relay
      ensures Valid() && relay.Valid() && relay.simulatedDelay == old(relay.simulatedDelay)
      ensures var p := TryRelease(old(relay.buffer), now, relay.simulatedDelay);
        relay.buffer == p.rest &&
        relay.released == old(relay.released) + Released(p) && relay.sent == old(relay.sent) &&
        received == (old(received) || p.ok) &&
        velocity == (if p.ok then TargetVelocity(p.msg.position, localPosition, relay.SyncInterval) else old(velocity))
      ensures localPosition == old(localPosition) && bodyVelocity == old(bodyVelocity)
    {
      var ok, msg := relay.TryGetMessage(now);
      if ok {
        velocity := Div(Sub(msg.position, localPosition), relay.SyncInterval);
        received := true;
      }
    }

    method FixedUpdate()
      requires Valid()
      modifies this
      ensures Valid()
      ensures bodyVelocity == velocity
      ensures velocity == old(velocity) && localPosition == old(localPosition) && received == old(received)
    {
      bodyVelocity := velocity;
    }
  }
}
