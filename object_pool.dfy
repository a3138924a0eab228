/**
 * ObjectPool: a queue of inactive, reusable objects. Get hands out the
 * oldest pooled object (creating one when the pool is empty) and activates
 * it; Return deactivates an object and puts it at the back.
 */
module Pooling {
  import opened Vectors

  /**
   * A pooled scene object. Its identity is the object reference; `active`
   * is SetActive's flag, `localPosition` its transform, and `id`/`length`
   * come from its Hurdle component (which pool it belongs to, how long it is).
   */
  class GameObject {
    var active: bool
    var localPosition: Vec3
    const id: int
    const length: real

    /** Instantiate(prefab): a new object copied from the prefab. */
    constructor Instantiate(prefab: GameObject)
      ensures active == prefab.active && localPosition == prefab.localPosition
      ensures id == prefab.id && length == prefab.length
    {
      active := prefab.active;
      localPosition := prefab.localPosition;
      id := prefab.id;
      length := prefab.length;
    }
  }

  /** The head of a queue, as a frame: the only pooled object Get may touch. */
  function Head(q: seq<GameObject>): set<GameObject> {
    if q == [] then {} else {q[0]}
  }

  class ObjectPool {
    const prefab: GameObject
    const initialSize: int
    var pool: seq<GameObject>

    /** Every pooled object is inactive and pooled once. */
    ghost predicate Sound()
      reads this, pool
    {
      (forall i :: 0 <= i < |pool| ==> !pool[i].active) &&
      (forall i, j :: 0 <= i < j < |pool| ==> pool[i] != pool[j])
    }

    constructor (prefab: GameObject, initialSize: int)
      ensures this.prefab == prefab && this.initialSize == initialSize
      ensures pool == [] && Sound()
    {
      this.prefab := prefab;
      this.initialSize := initialSize;
      pool := [];
    }

    /** Start: pre-fill with `initialSize` new inactive copies of the prefab. */
    method Start()
      modifies this
      ensures |pool| == |old(pool)| + (if initialSize > 0 then initialSize else 0)
      ensures pool[..|old(pool)|] == old(pool)
      ensures forall i :: |old(pool)| <= i < |pool| ==>
        fresh(pool[i]) && !pool[i].active && pool[i].length == prefab.length && pool[i].id == prefab.id
      ensures old(Sound()) ==> Sound()
    {
      ghost var before := pool;
      var i := 0;
      while i < initialSize
        invariant i == 0 || i <= initialSize
        invariant |pool| == |before| + i && pool[..|before|] == before
        invariant forall k :: |before| <= k < |pool| ==>
          fresh(pool[k]) && !pool[k].active && pool[k].length == prefab.length && pool[k].id == prefab.id
        invariant forall k, l :: |before| <= k < l < |pool| ==> pool[k] != pool[l]
        invariant forall k :: 0 <= k < |before| ==> pool[k].active == old(pool[k].active)
      {
        var go := new GameObject.Instantiate(prefab);
        go.active := false;
        pool := pool + [go];
        i := i + 1;
      }
    }

    /** Get never fails: on an empty pool it makes a new object first. */
    method Get() returns (item: GameObject)
      modifies this, Head(pool)
      ensures item.active
      ensures old(pool) == [] ==> fresh(item) && pool == [] && item.length == prefab.length && item.id == prefab.id
      ensures old(pool) != [] ==> item == old(pool)[0] && pool == old(pool)[1..]
      ensures old(pool) == [] ==> item.localPosition == prefab.localPosition
      ensures old(pool) != [] ==> item.localPosition == old(pool[0].localPosition)
      ensures old(Sound()) ==> Sound() && item !in pool
    {
      if |pool| == 0 {
        var go := new GameObject.Instantiate(prefab);
        go.active := false;
        pool := pool + [go];
      }
      item := pool[0];
      pool := pool[1..];
      item.active := true;
    }

    /** Return: deactivate and append. Soundness is kept unless the object was already pooled. */
    method Return(go: GameObject)
      modifies this, go
      ensures !go.active && pool == old(pool) + [go]
      ensures go.localPosition == old(go.localPosition)
      ensures old(Sound()) && go !in old(pool) ==> Sound()
    {
      go.active := false;
      pool := pool + [go];
    }
  }
}
