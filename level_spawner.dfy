/**
 * LevelSpawner: places track segments end to end. Each new segment's centre
 * sits half its own length plus half the previous segment's length further
 * along z, so consecutive segments abut exactly.
 */
module Spawning {
  import opened Vectors
  import opened Pooling

  /** Start's value for the length of the segment already in the scene. */
  const InitialPreviousLength: real := 20.0

  /** The spawn point after placing a segment of `length` behind one of `previousLength`. */
  function NextSpawnPoint(last: Vec3, previousLength: real, length: real): (p: Vec3)
    ensures p.x == last.x && p.y == last.y
    ensures p.z - length / 2.0 == last.z + previousLength / 2.0
  {
    Add(last, Vec3(0.0, 0.0, length / 2.0 + previousLength / 2.0))
  }

  /** The centres of successive segments of the given lengths. */
  function Placements(last: Vec3, previousLength: real, lengths: seq<real>): (ps: seq<Vec3>)
    ensures |ps| == |lengths|
    decreases |lengths|
  {
    if lengths == [] then []
    else
      var p := NextSpawnPoint(last, previousLength, lengths[0]);
      [p] + Placements(p, lengths[0], lengths[1..])
  }

  function Sum(s: seq<real>): real {
    if s == [] then 0.0 else s[0] + Sum(s[1..])
  }

  /**
   * Segments tile the track: the front edge of the k-th spawned segment lies
   * exactly the total length of the first k+1 segments beyond the front edge
   * of the segment that was there first, with x and y unchanged.
   */
  lemma {:induction false} PlacementsTile(last: Vec3, previousLength: real, lengths: seq<real>, k: nat)
    requires k < |lengths|
    ensures var p := Placements(last, previousLength, lengths)[k];
      p.x == last.x && p.y == last.y &&
      p.z + lengths[k] / 2.0 == last.z + previousLength / 2.0 + Sum(lengths[..k + 1])
    decreases k
  {
    var p := NextSpawnPoint(last, previousLength, lengths[0]);
    var rest := Placements(p, lengths[0], lengths[1..]);
    assert Placements(last, previousLength, lengths) == [p] + rest;
    if k == 0 {
      assert lengths[..1] == [lengths[0]];
      assert Sum(lengths[..1]) == lengths[0] + Sum([]);
    } else {
      PlacementsTile(p, lengths[0], lengths[1..], k - 1);
      assert lengths[..k + 1][1..] == lengths[1..][..k];
      assert Sum(lengths[..k + 1]) == lengths[0] + Sum(lengths[1..][..k]);
      assert ([p] + rest)[k] == rest[k - 1];
    }
  }

  /** Every point lies beyond `z`, and the points' z coordinates strictly increase. */
  ghost predicate StrictlyBeyond(z: real, ps: seq<Vec3>) {
    (forall k :: 0 <= k < |ps| ==> z < ps[k].z) &&
    (forall i, j :: 0 <= i < j < |ps| ==> ps[i].z < ps[j].z)
  }

  /** With positive lengths the spawn point strictly advances with every segment. */
  lemma {:induction false} PlacementsAdvance(last: Vec3, previousLength: real, lengths: seq<real>)
    requires previousLength > 0.0
    requires forall l :: l in lengths ==> l > 0.0
    ensures StrictlyBeyond(last.z, Placements(last, previousLength, lengths))
    decreases |lengths|
  {
    if lengths != [] {
      assert lengths[0] in lengths;
      assert forall l :: l in lengths[1..] ==> l in lengths;
      var p := NextSpawnPoint(last, previousLength, lengths[0]);
      var rest := Placements(p, lengths[0], lengths[1..]);
      PlacementsAdvance(p, lengths[0], lengths[1..]);
      var ps := [p] + rest;
      assert Placements(last, previousLength, lengths) == ps;
      assert last.z < p.z;
      forall k | 0 <= k < |ps| ensures last.z < ps[k].z {
        if k > 0 { assert ps[k] == rest[k - 1]; }
      }
      forall i, j | 0 <= i < j < |ps| ensures ps[i].z < ps[j].z {
        assert ps[j] == rest[j - 1];
        if i > 0 { assert ps[i] == rest[i - 1]; }
      }
    }
  }

  class LevelSpawner {
    const hurdlePools: seq<ObjectPool>
    var lastSpawnPoint: Vec3
    var previousHurdleLength: real
    var hurdleID: int
    var initialYOffset: real
    var initialZOffset: real
    /** transform.position of the spawner's trigger volume. */
    var position: Vec3

    constructor (pools: seq<ObjectPool>, position: Vec3)
      ensures hurdlePools == pools && this.position == position
      ensures lastSpawnPoint == Zero && previousHurdleLength == 0.0 && hurdleID == 0
      ensures initialYOffset == 0.0 && initialZOffset == 0.0
    {
      hurdlePools := pools;
      this.position := position;
      lastSpawnPoint, previousHurdleLength, hurdleID := Zero, 0.0, 0;
      initialYOffset, initialZOffset := 0.0, 0.0;
    }

    /** Start: `lastChild` is the local position of the last segment already in the world. */
    method Start(lastChild: Vec3)
      modifies this
      ensures lastSpawnPoint == lastChild && previousHurdleLength == InitialPreviousLength
      ensures initialZOffset == position.z && initialYOffset == position.y
      ensures position == old(position) && hurdleID == old(hurdleID)
    {
      lastSpawnPoint := lastChild;
      previousHurdleLength := InitialPreviousLength;
      initialZOffset := position.z;
      initialYOffset := position.y;
    }

    /** Update: keep the trigger volume at its offset ahead of the player, when there is one. */
    method Update(hasPlayer: bool, playerZ: real)
      modifies this
      ensures position == (if hasPlayer then Vec3(0.0, initialYOffset, initialZOffset + playerZ) else old(position))
      ensures lastSpawnPoint == old(lastSpawnPoint) && previousHurdleLength == old(previousHurdleLength)
      ensures hurdleID == old(hurdleID) && initialYOffset == old(initialYOffset) && initialZOffset == old(initialZOffset)
    {
      if hasPlayer {
        position := Vec3(0.0, initialYOffset, initialZOffset + playerZ);
      }
    }

    /**
     * SpawnRandomHurdle with the pool index `chosen` (drawn by the main world,
     * replayed by the clone world); the spawned object is returned.
     */
    method SpawnRandomHurdle(chosen: int) returns (spawned: GameObject)
      requires 0 <= chosen < |hurdlePools|
      modifies this, hurdlePools[chosen], Head(hurdlePools[chosen].pool)
      ensures hurdleID == chosen && spawned.active
      ensures var q := old(hurdlePools[chosen].pool);
        (q == [] ==> fresh(spawned) && hurdlePools[chosen].pool == [] &&
                     spawned.length == hurdlePools[chosen].prefab.length) &&
        (q != [] ==> spawned == q[0] && hurdlePools[chosen].pool == q[1..])
      ensures lastSpawnPoint == NextSpawnPoint(old(lastSpawnPoint), old(previousHurdleLength), spawned.length)
      ensures spawned.localPosition == lastSpawnPoint && previousHurdleLength == spawned.length
      ensures old(hurdlePools[chosen].Sound()) ==> hurdlePools[chosen].Sound()
      ensures position == old(position) && initialYOffset == old(initialYOffset) && initialZOffset == old(initialZOffset)
    {
      hurdleID := chosen;
      var worldHurdle := hurdlePools[hurdleID].Get();
      var hurdleLength := worldHurdle.length;
      lastSpawnPoint := Add(lastSpawnPoint, Vec3(0.0, 0.0, hurdleLength / 2.0 + previousHurdleLength / 2.0));
      worldHurdle.localPosition := lastSpawnPoint;
      previousHurdleLength := hurdleLength;
      spawned := worldHurdle;
    }

    /**
     * OnTriggerEnter: only a segment tagged "Hurdle" is handled; it goes back
     * to the pool its id names, and then exactly one new segment is spawned
     * from pool `chosen`.
     */
    method OnTriggerEnter(isHurdle: bool, other: GameObject, chosen: int) returns (spawned: GameObject?)
      requires isHurdle ==> 0 <= other.id < |hurdlePools| && 0 <= chosen < |hurdlePools|
      modifies this
      modifies if isHurdle then {other, hurdlePools[other.id], hurdlePools[chosen]} else {}
      modifies if isHurdle then Head(hurdlePools[chosen].pool) else {}
      ensures !isHurdle ==> (spawned == null && lastSpawnPoint == old(lastSpawnPoint) &&
        previousHurdleLength == old(previousHurdleLength) && hurdleID == old(hurdleID))
      ensures isHurdle ==> (spawned != null && spawned.active && hurdleID == chosen &&
        lastSpawnPoint == NextSpawnPoint(old(lastSpawnPoint), old(previousHurdleLength), spawned.length) &&
        spawned.localPosition == lastSpawnPoint && previousHurdleLength == spawned.length)
      ensures isHurdle ==>
        var back, from := hurdlePools[other.id], hurdlePools[chosen];
        var q := if back == from then old(from.pool) + [other] else old(from.pool);
        (back != from ==> back.pool == old(back.pool) + [other]) &&
        (q == [] ==> fresh(spawned) && from.pool == []) &&
        (q != [] ==> spawned == q[0] && from.pool == q[1..])
      ensures isHurdle ==>
        var back, from := hurdlePools[other.id], hurdlePools[chosen];
        old(back.Sound()) && old(from.Sound()) && other !in old(back.pool) ==>
        from.Sound() && (spawned !in back.pool ==> back.Sound())
      ensures isHurdle && spawned != other ==> !other.active && other.localPosition == old(other.localPosition)
      ensures position == old(position) && initialYOffset == old(initialYOffset) && initialZOffset == old(initialZOffset)
    {
      if !isHurdle {
        return null;
      }
      hurdlePools[other.id].Return(other);
      spawned := SpawnRandomHurdle(chosen);
    }
  }
}
