/**
 * PlayerController: the authoritative runner. Its Update throttles capture:
 * time accumulates in `syncTimer`, and once a full sync interval has passed
 * one sample goes to the relay carrying the pending speed-change flag, after
 * which timer and flag start afresh. FixedUpdate moves the body forward
 * unless game over has made it kinematic.
 */
module Player {
  import opened Vectors
  import opened SyncMessages
  import opened Sync
  import opened Game

  /** The throttle's state: the `syncTimer` and `speedChanged` fields. */
  datatype Throttle = Throttle(syncTimer: real, speedChanged: bool)

  /** A throttle state with the samples emitted on the way to it. */
  datatype Emit = Emit(next: Throttle, out: seq<SyncMessage>)

  /** One Update: `now` is Time.time, `dt` Time.deltaTime, `pos` the local position. */
  function Tick(s: Throttle, now: real, dt: real, pos: Vec3, interval: real): (r: Emit)
    ensures |r.out| <= 1
    ensures r.out != [] <==> s.syncTimer + dt >= interval
    ensures r.out != [] ==> r.out == [Create(now, pos, s.speedChanged)] && r.next == Throttle(0.0, false)
    ensures r.out == [] ==> r.next == Throttle(s.syncTimer + dt, s.speedChanged)
  {
    var timer := s.syncTimer + dt;
    if timer >= interval then Emit(Throttle(0.0, false), [Create(now, pos, s.speedChanged)])
    else Emit(Throttle(timer, s.speedChanged), [])
  }

  /** What the controller sees: an Update, or the OnSpeedChanged event. */
  datatype Input = Frame(now: real, dt: real, pos: Vec3) | SpeedChange

  function Feed(s: Throttle, i: Input, interval: real): Emit {
    match i
    case Frame(now, dt, pos) => Tick(s, now, dt, pos, interval)
    case SpeedChange => Emit(s.(speedChanged := true), [])
  }

  /** Runs the inputs in order, collecting every emitted sample. */
  function RunInputs(s: Throttle, ins: seq<Input>, interval: real): Emit
    decreases |ins|
  {
    if ins == [] then Emit(s, [])
    else
      var e := Feed(s, ins[0], interval);
      var r := RunInputs(e.next, ins[1..], interval);
      Emit(r.next, e.out + r.out)
  }

  /** Total time elapsed over the frames of a run. */
  function TotalDt(ins: seq<Input>): real {
    if ins == [] then 0.0 else Dt(ins[0]) + TotalDt(ins[1..])
  }

  function Frames(ins: seq<Input>): nat {
    if ins == [] then 0 else (if ins[0].Frame? then 1 else 0) + Frames(ins[1..])
  }

  function Changes(ins: seq<Input>): nat {
    if ins == [] then 0 else (if ins[0].SpeedChange? then 1 else 0) + Changes(ins[1..])
  }

  /** The number of samples carrying the speed-change flag. */
  function Flagged(ms: seq<SyncMessage>): nat {
    if ms == [] then 0 else (if ms[0].speedChanged then 1 else 0) + Flagged(ms[1..])
  }

  function Count(b: bool): nat {
    if b then 1 else 0
  }

  lemma {:induction false} FlaggedAppend(a: seq<SyncMessage>, b: seq<SyncMessage>)
    ensures Flagged(a + b) == Flagged(a) + Flagged(b)
    decreases |a|
  {
    if a == [] {
      assert a + b == b;
    } else {
      assert (a + b)[1..] == a[1..] + b;
      FlaggedAppend(a[1..], b);
    }
  }

  /** `n` intervals of length `c`, added up one by one (equal to n × c, see `TimesIsProduct`). */
  function Times(n: nat, c: real): real {
    if n == 0 then 0.0 else c + Times(n - 1, c)
  }

  lemma {:induction false} TimesIsProduct(n: nat, c: real)
    ensures Times(n, c) == (n as real) * c
  {
    if n > 0 {
      TimesIsProduct(n - 1, c);
      assert (n as real) * c == ((n - 1) as real) * c + c;
    }
  }

  lemma {:induction false} TimesAdd(a: nat, b: nat, c: real)
    ensures Times(a + b, c) == Times(a, c) + Times(b, c)
  {
    if a > 0 {
      TimesAdd(a - 1, b, c);
      assert a + b - 1 == (a - 1) + b;
    }
  }

  /** A run respects the sync interval: `r.out`'s samples fit into the time available. */
  ghost predicate WithinBudget(r: Emit, timer: real, elapsed: real, interval: real) {
    Times(|r.out|, interval) + r.next.syncTimer <= timer + elapsed
  }

  /**
   * The throttle bounds the capture rate: every sample consumes a full
   * interval of accumulated time and the remainder at emission is dropped,
   * so n samples need at least n intervals of elapsed time.
   */
  lemma {:induction false} ThrottleRate(s: Throttle, ins: seq<Input>, interval: real)
    ensures var r := RunInputs(s, ins, interval);
      (|r.out| as real) * interval + r.next.syncTimer <= s.syncTimer + TotalDt(ins)
  {
    RunWithinBudget(s, ins, interval);
    TimesIsProduct(|RunInputs(s, ins, interval).out|, interval);
  }

  lemma {:induction false} RunWithinBudget(s: Throttle, ins: seq<Input>, interval: real)
    ensures WithinBudget(RunInputs(s, ins, interval), s.syncTimer, TotalDt(ins), interval)
    decreases |ins|
  {
    if ins == [] {
      assert RunInputs(s, ins, interval) == Emit(s, []);
    } else {
      var e := Feed(s, ins[0], interval);
      var r := RunInputs(e.next, ins[1..], interval);
      RunWithinBudget(e.next, ins[1..], interval);
      assert WithinBudget(e, s.syncTimer, Dt(ins[0]), interval);
      assert RunInputs(s, ins, interval) == Emit(r.next, e.out + r.out);
      assert TotalDt(ins) == Dt(ins[0]) + TotalDt(ins[1..]);
      TimesAdd(|e.out|, |r.out|, interval);
    }
  }

  /** The time an input contributes to the run. */
  function Dt(i: Input): real {
    if i.Frame? then i.dt else 0.0
  }

  /**
   * Without a sample the timer holds all the time elapsed: nothing is lost
   * between emissions, and speed changes leave the timer alone.
   */
  lemma {:induction false} TimerAccumulates(s: Throttle, ins: seq<Input>, interval: real)
    ensures var r := RunInputs(s, ins, interval);
      r.out == [] ==> r.next.syncTimer == s.syncTimer + TotalDt(ins)
    decreases |ins|
  {
    if ins != [] {
      var e := Feed(s, ins[0], interval);
      var r := RunInputs(e.next, ins[1..], interval);
      TimerAccumulates(e.next, ins[1..], interval);
      assert RunInputs(s, ins, interval) == Emit(r.next, e.out + r.out);
      if e.out + r.out == [] {
        assert e.out == [] && r.out == [];
      }
    }
  }

  /** Running two pieces one after the other is running their concatenation. */
  lemma {:induction false} RunSplit(s: Throttle, a: seq<Input>, b: seq<Input>, interval: real)
    ensures var ra := RunInputs(s, a, interval);
      var rb := RunInputs(ra.next, b, interval);
      RunInputs(s, a + b, interval) == Emit(rb.next, ra.out + rb.out)
    decreases |a|
  {
    if a == [] {
      assert a + b == b;
    } else {
      var e := Feed(s, a[0], interval);
      assert (a + b)[0] == a[0] && (a + b)[1..] == a[1..] + b;
      RunSplit(e.next, a[1..], b, interval);
      var ra := RunInputs(e.next, a[1..], interval);
      var rb := RunInputs(ra.next, b, interval);
      assert e.out + (ra.out + rb.out) == (e.out + ra.out) + rb.out;
    }
  }

  /**
   * After the last sample of a run the timer restarts from zero: if input k
   * emits and no input after it does, the final timer is exactly the time
   * elapsed after input k.
   */
  lemma {:induction false} TimerSinceLastSample(s: Throttle, ins: seq<Input>, interval: real, k: nat)
    requires k < |ins|
    requires Feed(RunInputs(s, ins[..k], interval).next, ins[k], interval).out != []
    requires RunInputs(Throttle(0.0, false), ins[k + 1..], interval).out == []
    ensures RunInputs(s, ins, interval).next.syncTimer == TotalDt(ins[k + 1..])
  {
    var pre := RunInputs(s, ins[..k], interval);
    var e := Feed(pre.next, ins[k], interval);
    assert e.next == Throttle(0.0, false);
    assert ins == ins[..k] + ([ins[k]] + ins[k + 1..]);
    RunSplit(s, ins[..k], [ins[k]] + ins[k + 1..], interval);
    assert ([ins[k]] + ins[k + 1..])[0] == ins[k] && ([ins[k]] + ins[k + 1..])[1..] == ins[k + 1..];
    TimerAccumulates(Throttle(0.0, false), ins[k + 1..], interval);
  }

  /** At most one sample per Update; speed-change events never emit. */
  lemma {:induction false} OneSamplePerFrame(s: Throttle, ins: seq<Input>, interval: real)
    ensures |RunInputs(s, ins, interval).out| <= Frames(ins)
    decreases |ins|
  {
    if ins != [] {
      var e := Feed(s, ins[0], interval);
      OneSamplePerFrame(e.next, ins[1..], interval);
    }
  }

  /**
   * Speed changes are never duplicated: flagged samples plus a flag still
   * pending never outnumber the changes that happened (plus one pending at
   * the start).
   */
  lemma {:induction false} FlagNeverDuplicated(s: Throttle, ins: seq<Input>, interval: real)
    ensures var r := RunInputs(s, ins, interval);
      Flagged(r.out) + Count(r.next.speedChanged) <= Changes(ins) + Count(s.speedChanged)
    decreases |ins|
  {
    if ins != [] {
      var e := Feed(s, ins[0], interval);
      var r := RunInputs(e.next, ins[1..], interval);
      FlagNeverDuplicated(e.next, ins[1..], interval);
      FlaggedAppend(e.out, r.out);
      assert Flagged(e.out) + Count(e.next.speedChanged) <= Count(ins[0].SpeedChange?) + Count(s.speedChanged);
    }
  }

  /**
   * A pending speed change is carried by exactly the next sample: with only
   * Updates following, the first emitted sample carries the flag, no later
   * one does, and if none is emitted the flag is still pending.
   */
  lemma {:induction false} FlagGoesToNextSample(s: Throttle, ins: seq<Input>, interval: real)
    requires forall i :: i in ins ==> i.Frame?
    ensures var r := RunInputs(s, ins, interval);
      Flagged(r.out) == Count(s.speedChanged && r.out != []) &&
      r.next.speedChanged == (s.speedChanged && r.out == []) &&
      (r.out != [] ==> r.out[0].speedChanged == s.speedChanged)
    decreases |ins|
  {
    if ins != [] {
      assert ins[0] in ins;
      assert forall i :: i in ins[1..] ==> i in ins;
      var e := Feed(s, ins[0], interval);
      var r := RunInputs(e.next, ins[1..], interval);
      FlagGoesToNextSample(e.next, ins[1..], interval);
      FlaggedAppend(e.out, r.out);
      if e.out != [] {
        assert Flagged(e.out) == Count(s.speedChanged);
        assert (e.out + r.out)[0] == e.out[0];
      }
    }
  }

  /** FixedUpdate's move: a kinematic body stays put, otherwise it advances along +z only. */
  function Advance(pos: Vec3, kinematic: bool, speed: real, fixedDt: real): (p: Vec3)
    ensures kinematic ==> p == pos
    ensures !kinematic ==> p.x == pos.x && p.y == pos.y && p.z == pos.z + speed * fixedDt
  {
    if kinematic then pos else Add(pos, Scale(Forward, speed * fixedDt))
  }

  class PlayerController {
    var syncTimer: real
    var speedChanged: bool
    var isKinematic: bool
    var useGravity: bool
    /** The body's position (taken to coincide with transform.localPosition). */
    var position: Vec3

    function State(): Throttle
      reads this
    {
      Throttle(syncTimer, speedChanged)
    }

    constructor (start: Vec3)
      ensures State() == Throttle(0.0, false) && position == start
      ensures !isKinematic && useGravity
    {
      syncTimer, speedChanged := 0.0, false;
      isKinematic, useGravity := false, true;
      position := start;
    }

    /** Update at clock `now` after `dt` seconds: the throttled send into `relay`. */
    method Update(now: real, dt: real, relay: SyncManager)
      requires relay.Valid()
      modifies this, relay
      ensures relay.Valid() && relay.simulatedDelay == old(relay.simulatedDelay)
      ensures var r := Tick(old(State()), now, dt, old(position), relay.SyncInterval);
        State() == r.next && relay.buffer == old(relay.buffer) + r.out &&
        relay.sent == old(relay.sent) + r.out && relay.released == old(relay.released)
      ensures position == old(position) && isKinematic == old(isKinematic) && useGravity == old(useGravity)
    {
      syncTimer := syncTimer + dt;
      if syncTimer >= relay.SyncInterval {
        relay.SendMessage(Create(now, position, speedChanged));
        syncTimer := 0.0;
        speedChanged := false;
      }
    }

    /** The OnSpeedChanged handler: marks the next sample. */
    method SpeedChanged(speed: real)
      modifies this
      ensures State() == Feed(old(State()), SpeedChange, 0.0).next
      ensures position == old(position) && isKinematic == old(isKinematic) && useGravity == old(useGravity)
    {
      speedChanged := true;
    }

    /** The OnGameOver handler: freeze the body. */
    method GameOver()
      modifies this
      ensures isKinematic && !useGravity
      ensures State() == old(State()) && position == old(position)
    {
      useGravity := false;
      isKinematic := true;
    }

    /** FixedUpdate with Time.fixedDeltaTime `fixedDt`, at the manager's current speed. */
    method FixedUpdate(game: GameManager, fixedDt: real)
      modifies this
      ensures position == Advance(old(position), isKinematic, game.CurrentPlayerSpeed(), fixedDt)
      ensures State() == old(State()) && isKinematic == old(isKinematic) && useGravity == old(useGravity)
    {
      if isKinematic {
        return;
      }
      var speed := game.CurrentPlayerSpeed();
      var newPos := Add(position, Scale(Forward, speed * fixedDt));
      position := newPos;
    }
  }
}
