/**
 * GameManager: score and speed bookkeeping. The session state (distance,
 * orb score, high score, speed multiplier, game-over flag and whether the
 * speed-increase coroutine is still alive) evolves by one event at a time.
 */
module Game {

  /** The inspector-tunable settings that the bookkeeping reads. */
  datatype Tuning = Tuning(baseSpeed: real, speedIncreaseAmount: real, maxSpeedMultiplier: real, orbPoints: int)

  /** The field initialisers: base speed 6, +0.2 per step, cap 2, 10 points per orb. */
  const Defaults: Tuning := Tuning(6.0, 0.2, 2.0, 10)

  /**
   * The mutable part of the manager. `rampRunning` says whether
   * SpeedIncreaseRoutine is still suspended in its wait (and so will run its
   * body once more when the wait elapses).
   */
  datatype Session = Session(distanceAccum: real, orbScore: int, highScore: int,
                             speedMultiplier: real, isGameOver: bool, rampRunning: bool)

  /** An event the manager reacts to. `SpeedTick` is the coroutine's wait elapsing. */
  datatype Event = Frame(dt: real) | OrbCollected | PlayerHit | SpeedTick | Reset

  /** TotalScore: whole distance units (Mathf.FloorToInt) plus orb points. */
  function ScoreOf(s: Session): (r: int)
    ensures (r - s.orbScore) as real <= s.distanceAccum < (r - s.orbScore + 1) as real
  {
    s.distanceAccum.Floor + s.orbScore
  }

  /** CurrentPlayerSpeed: base speed scaled by the multiplier. */
  function PlayerSpeed(t: Tuning, s: Session): (r: real)
    ensures 0.0 <= t.baseSpeed && 1.0 <= s.speedMultiplier <= t.maxSpeedMultiplier ==>
      t.baseSpeed <= r <= t.baseSpeed * t.maxSpeedMultiplier
  {
    SpeedBetween(t.baseSpeed, s.speedMultiplier, t.maxSpeedMultiplier);
    t.baseSpeed * s.speedMultiplier
  }

  lemma SpeedBetween(b: real, m: real, cap: real)
    ensures 0.0 <= b && 1.0 <= m <= cap ==> b <= b * m <= b * cap
  {
    if 0.0 <= b && 1.0 <= m <= cap {
      assert b * m - b == b * (m - 1.0);
      assert b * cap - b * m == b * (cap - m);
    }
  }

  /** One coroutine step: add the amount, then clamp with Mathf.Min at the cap. */
  function CappedStep(m: real, amount: real, cap: real): (r: real)
    ensures r <= cap && r <= m + amount
    ensures r == cap || r == m + amount
  {
    if m + amount < cap then m + amount else cap
  }

  /** The high score after a hit with final score `final`: replaced only by a strictly larger score. */
  function Best(high: int, final: int): (r: int)
    ensures r >= high && r >= final
    ensures r == high || r == final
  {
    if final > high then final else high
  }

  /** The new session state after one event. */
  function Apply(t: Tuning, s: Session, e: Event): (s': Session)
    ensures s'.highScore >= s.highScore
    ensures e.PlayerHit? ==> s'.isGameOver && s'.highScore >= ScoreOf(s)
    ensures e.Reset? ==> ScoreOf(s') == 0 && s'.highScore == s.highScore && !s'.isGameOver
  {
    match e
    case Frame(dt) =>
      if s.isGameOver then s
      else s.(distanceAccum := s.distanceAccum + PlayerSpeed(t, s) * dt)
    case OrbCollected =>
      s.(orbScore := s.orbScore + t.orbPoints)
    case PlayerHit =>
      s.(highScore := Best(s.highScore, ScoreOf(s)), isGameOver := true)
    case SpeedTick =>
      if s.rampRunning
      then s.(speedMultiplier := CappedStep(s.speedMultiplier, t.speedIncreaseAmount, t.maxSpeedMultiplier),
              rampRunning := !s.isGameOver)
      else s
    case Reset =>
      s.(distanceAccum := 0.0, orbScore := 0, speedMultiplier := 1.0, isGameOver := false)
  }

  /** The session state after a sequence of events. */
  function Run(t: Tuning, s: Session, es: seq<Event>): Session
    decreases |es|
  {
    if es == [] then s else Run(t, Apply(t, s, es[0]), es[1..])
  }

  /** The high score never decreases, whatever happens (resets included). */
  lemma {:induction false} HighScoreNeverDecreases(t: Tuning, s: Session, es: seq<Event>)
    ensures Run(t, s, es).highScore >= s.highScore
    decreases |es|
  {
    if es != [] {
      HighScoreNeverDecreases(t, Apply(t, s, es[0]), es[1..]);
    }
  }

  /** The high score is at least the final score of every hit that happened along the way. */
  lemma {:induction false} HighScoreCoversEveryHit(t: Tuning, s: Session, es: seq<Event>, i: nat)
    requires i < |es| && es[i].PlayerHit?
    ensures Run(t, s, es).highScore >= ScoreOf(Run(t, s, es[..i]))
    decreases |es|
  {
    var s1 := Apply(t, s, es[0]);
    if i == 0 {
      assert es[..0] == [];
      HighScoreNeverDecreases(t, s1, es[1..]);
    } else {
      assert es[..i][1..] == es[1..][..i - 1];
      assert es[..i] != [] && es[..i][0] == es[0];
      HighScoreCoversEveryHit(t, s1, es[1..], i - 1);
    }
  }

  /** A multiplier at or below the cap stays there, provided the reset value 1 is too. */
  lemma {:induction false} MultiplierStaysCapped(t: Tuning, s: Session, es: seq<Event>)
    requires 1.0 <= t.maxSpeedMultiplier && s.speedMultiplier <= t.maxSpeedMultiplier
    ensures Run(t, s, es).speedMultiplier <= t.maxSpeedMultiplier
    decreases |es|
  {
    if es != [] {
      MultiplierStaysCapped(t, Apply(t, s, es[0]), es[1..]);
    }
  }

  /**
   * With a non-negative step and a cap of at least 1, the multiplier stays
   * between the reset value 1 and the cap, so the player's speed stays
   * between the base speed and base speed × cap.
   */
  lemma {:induction false} SpeedStaysInRange(t: Tuning, s: Session, es: seq<Event>)
    requires 0.0 <= t.baseSpeed && 0.0 <= t.speedIncreaseAmount && 1.0 <= t.maxSpeedMultiplier
    requires 1.0 <= s.speedMultiplier <= t.maxSpeedMultiplier
    ensures var r := Run(t, s, es);
      1.0 <= r.speedMultiplier <= t.maxSpeedMultiplier &&
      t.baseSpeed <= PlayerSpeed(t, r) <= t.baseSpeed * t.maxSpeedMultiplier
    decreases |es|
  {
    if es != [] {
      SpeedStaysInRange(t, Apply(t, s, es[0]), es[1..]);
    }
  }

  /**
   * Once the coroutine has ended it never runs again: later resets and
   * restarts leave the multiplier at its value or at the reset value 1.
   */
  lemma {:induction false} RampEndsForGood(t: Tuning, s: Session, es: seq<Event>)
    requires !s.rampRunning
    ensures var r := Run(t, s, es); !r.rampRunning && (r.speedMultiplier == s.speedMultiplier || r.speedMultiplier == 1.0)
    decreases |es|
  {
    if es != [] {
      RampEndsForGood(t, Apply(t, s, es[0]), es[1..]);
    }
  }

  /**
   * The coroutine tests game over only after its wait: the wait pending at a
   * hit still applies one more capped step, and it is that test which ends
   * the ramp.
   */
  lemma StepAfterHit(t: Tuning, s: Session)
    requires s.rampRunning
    ensures var r := Run(t, s, [PlayerHit, SpeedTick]);
      !r.rampRunning && r.isGameOver &&
      r.speedMultiplier == CappedStep(s.speedMultiplier, t.speedIncreaseAmount, t.maxSpeedMultiplier)
  {
    var s1 := Apply(t, s, PlayerHit);
    assert Run(t, s, [PlayerHit, SpeedTick]) == Run(t, s1, [SpeedTick]);
    assert Run(t, s1, [SpeedTick]) == Apply(t, s1, SpeedTick);
  }

  /**
   * A restart while the coroutine's wait is still pending clears game over
   * before the coroutine's test, so the ramp keeps running from 1.
   */
  lemma RestartBeforeWaitKeepsRamp(t: Tuning, s: Session)
    requires s.rampRunning
    ensures var r := Run(t, s, [PlayerHit, Reset, SpeedTick]);
      r.rampRunning && !r.isGameOver &&
      r.speedMultiplier == CappedStep(1.0, t.speedIncreaseAmount, t.maxSpeedMultiplier)
  {
    var s1 := Apply(t, s, PlayerHit);
    var s2 := Apply(t, s1, Reset);
    assert Run(t, s, [PlayerHit, Reset, SpeedTick]) == Run(t, s1, [Reset, SpeedTick]);
    assert [PlayerHit, Reset, SpeedTick][1..] == [Reset, SpeedTick];
    assert Run(t, s1, [Reset, SpeedTick]) == Run(t, s2, [SpeedTick]);
    assert Run(t, s2, [SpeedTick]) == Apply(t, s2, SpeedTick);
  }

  /** After a hit and before any reset, distance no longer grows, however many frames pass. */
  lemma {:induction false} DistanceFrozenAfterHit(t: Tuning, s: Session, es: seq<Event>)
    requires s.isGameOver
    requires forall e :: e in es ==> !e.Reset?
    ensures Run(t, s, es).distanceAccum == s.distanceAccum
    ensures Run(t, s, es).isGameOver
    decreases |es|
  {
    if es != [] {
      assert es[0] in es;
      assert forall e :: e in es[1..] ==> e in es;
      DistanceFrozenAfterHit(t, Apply(t, s, es[0]), es[1..]);
    }
  }

  class GameManager {
    var baseSpeed: real
    var speedMultiplier: real
    var speedIncreaseInterval: real
    var speedIncreaseAmount: real
    var maxSpeedMultiplier: real
    var orbPoints: int
    var distanceAccum: real
    var orbScore: int
    var highScore: int
    var isGameOver: bool
    /** Whether the SpeedIncreaseRoutine coroutine is alive. */
    var rampRunning: bool

    function Tune(): Tuning
      reads this
    {
      Tuning(baseSpeed, speedIncreaseAmount, maxSpeedMultiplier, orbPoints)
    }

    function State(): Session
      reads this
    {
      Session(distanceAccum, orbScore, highScore, speedMultiplier, isGameOver, rampRunning)
    }

    /** The CurrentPlayerSpeed property. */
    function CurrentPlayerSpeed(): (r: real)
      reads this
      ensures r == baseSpeed * speedMultiplier
    {
      PlayerSpeed(Tune(), State())
    }

    /** The TotalScore property. */
    function TotalScore(): (r: int)
      reads this
      ensures (r - orbScore) as real <= distanceAccum < (r - orbScore + 1) as real
    {
      ScoreOf(State())
    }

    /** Field initialisers, then Awake's LoadHighScore with the stored value `storedHighScore`. */
    constructor (storedHighScore: int)
      ensures Tune() == Defaults && speedIncreaseInterval == 10.0
      ensures State() == Session(0.0, 0, storedHighScore, 1.0, false, false)
    {
      baseSpeed, speedMultiplier, speedIncreaseInterval := 6.0, 1.0, 10.0;
      speedIncreaseAmount, maxSpeedMultiplier, orbPoints := 0.2, 2.0, 10;
      distanceAccum, orbScore, isGameOver, rampRunning := 0.0, 0, false, false;
      highScore := storedHighScore;
    }

    /** Start launches the coroutine, whose loop ends at once if the game is already over. */
    method Start()
      modifies this
      ensures State() == old(State()).(rampRunning := !old(isGameOver))
      ensures Tune() == old(Tune()) && speedIncreaseInterval == old(speedIncreaseInterval)
    {
      rampRunning := !isGameOver;
    }

    method Update(dt: real)
      modifies this
      ensures State() == Apply(Tune(), old(State()), Frame(dt))
      ensures Tune() == old(Tune()) && speedIncreaseInterval == old(speedIncreaseInterval)
    {
      if !isGameOver {
        distanceAccum := distanceAccum + CurrentPlayerSpeed() * dt;
      }
    }

    method OrbCollected()
      modifies this
      ensures State() == Apply(Tune(), old(State()), Event.OrbCollected)
      ensures Tune() == old(Tune()) && speedIncreaseInterval == old(speedIncreaseInterval)
    {
      orbScore := orbScore + orbPoints;
    }

    method PlayerHit()
      modifies this
      ensures State() == Apply(Tune(), old(State()), Event.PlayerHit)
      ensures Tune() == old(Tune()) && speedIncreaseInterval == old(speedIncreaseInterval)
    {
      var finalScore := TotalScore();
      if finalScore > highScore {
        highScore := finalScore;
      }
      isGameOver := true;
    }

    /** The body of SpeedIncreaseRoutine after one wait, followed by the loop's test. */
    method SpeedIncreaseStep()
      modifies this
      ensures State() == Apply(Tune(), old(State()), SpeedTick)
      ensures Tune() == old(Tune()) && speedIncreaseInterval == old(speedIncreaseInterval)
    {
      if rampRunning {
        speedMultiplier := speedMultiplier + speedIncreaseAmount;
        speedMultiplier := if speedMultiplier < maxSpeedMultiplier then speedMultiplier else maxSpeedMultiplier;
        rampRunning := !isGameOver;
      }
    }

    method ResetParams()
      modifies this
      ensures State() == Apply(Tune(), old(State()), Reset)
      ensures Tune() == old(Tune()) && speedIncreaseInterval == old(speedIncreaseInterval)
    {
      distanceAccum := 0.0;
      orbScore := 0;
      speedMultiplier := 1.0;
      isGameOver := false;
    }

    /** StartGame: reset, then load the game-play scene. */
    method StartGame()
      modifies this
      ensures State() == Apply(Tune(), old(State()), Reset)
      ensures Tune() == old(Tune()) && speedIncreaseInterval == old(speedIncreaseInterval)
    {
      ResetParams();
    }

    /** Restart: reset, then reload the active scene. */
    method Restart()
      modifies this
      ensures State() == Apply(Tune(), old(State()), Reset)
      ensures Tune() == old(Tune()) && speedIncreaseInterval == old(speedIncreaseInterval)
    {
      ResetParams();
    }

    /** GoToMainMenu: reset, then load the menu scene. */
    method GoToMainMenu()
      modifies this
      ensures State() == Apply(Tune(), old(State()), Reset)
      ensures Tune() == old(Tune()) && speedIncreaseInterval == old(speedIncreaseInterval)
    {
      ResetParams();
    }
  }
}
