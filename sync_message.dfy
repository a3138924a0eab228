/** The replication sample: one captured moment of the player. */
module SyncMessages {
  import opened Vectors

  /**
   * A captured sample. `time` is the clock value at capture, `position` the
   * player's local position, and `speedChanged` the flag the producer passes
   * along (see README for why this field is modelled).
   * As a datatype it is a value: a buffered copy never changes afterwards.
   */
  datatype SyncMessage = SyncMessage(time: real, position: Vec3, speedChanged: bool)

  /** `default(SyncMessage)`: what TryGetMessage writes to its out parameter on failure. */
  const Default: SyncMessage := SyncMessage(0.0, Zero, false)

  /** SyncMessage.Create: stamps the sample with the current clock `now`. */
  function Create(now: real, pos: Vec3, speedChanged: bool): (m: SyncMessage)
    ensures m.time == now
    ensures m.position == pos
    ensures m.speedChanged == speedChanged
  {
    SyncMessage(now, pos, speedChanged)
  }

}
