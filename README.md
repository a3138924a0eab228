# Sync Dash: a verified model of the replication and bookkeeping core

Sync Dash is an endless runner. A live player and a "ghost" copy of it run side by side. The player's
controller captures samples of its position at most once per sync interval (0.03 s) and pushes
them into a relay, `SyncManager`. The relay hands each sample to the ghost only once its
simulated delay (0.2 s by default) has elapsed. It hands out at most one sample per poll and
always the oldest first. The ghost turns each released sample into a velocity that reaches the
sample's position in one sync interval. Track segments come from object pools and are laid end
to end by `LevelSpawner`. `GameManager` keeps the distance, the orb score, the high score and
the capped speed multiplier.

The model has one Dafny module per source file, plus `Vectors` for Unity's `Vector3`:

- `SyncMessages` (sync_message.dfy): the sample record and `Create`.
- `Sync` (sync_manager.dfy): the relay as a class over a `seq` buffer. `TryRelease` is the pure
  effect of one poll. `Replay` runs any interleaving of sends and polls, with lemmas for
  exactly-once FIFO delivery, release only when due, at most one release per poll, head-of-line
  blocking and eventual draining. The class keeps the ghost invariant
  `released + buffer == sent`.
- `Player` (player_controller.dfy): the throttle as a pure step `Tick` over `Throttle` states.
  `RunInputs` runs traces of updates and speed-change events, with lemmas for the rate bound
  and for the speed-change flag travelling with exactly one sample. The class
  `PlayerController` is tied to `Tick`.
- `Ghost` (ghost_controller.dfy): the velocity rule, and the consumer class.
- `Pooling` (object_pool.dfy): scene objects as a class (reference identity stands for the
  engine's object ids) and the pool as a class over a `seq`.
- `Spawning` (level_spawner.dfy): the placement arithmetic, lemmas that the segments tile the
  track, and the spawner class.
- `Game` (game_manager.dfy): the session state as a datatype. `Apply` performs one event and
  `Run` a sequence of them. The class `GameManager` ties each method to `Apply`.

Clock values (`Time.time`, `Time.deltaTime`, `Time.fixedDeltaTime`) are method parameters. Floats
are reals.

The model keeps these behaviours of the code as written.
- The relay does not reject or clamp out-of-order timestamps. It releases strictly in send
  order, whatever the timestamps hold (`Sync.ReplayExactlyOnce`, `Sync.HeadBlocks`).
- No capture is ever forced outside the throttle.
- A sample carries no velocity and no event flags other than the speed-change flag.
- There is no sequence relay.
- Which pool a new segment comes from is the `chosen` parameter of `SpawnRandomHurdle` (see below).

Two points about the source text shape the model.
- `PlayerController.cs:47` calls `SyncMessage.Create(pos, speedChanged)`, but `SyncMessage.cs:10`
  declares only `Create(pos)`, and the struct has no flag field. The model follows the call
  site: a sample is `(time, position, speedChanged)`.
- `LevelSpawner.cs:50` and `:52` call `GetRandomHurdleID` and `GetMainWorldHurdleID`. Neither
  exists in `SyncManager.cs`, so the pool index is an input with a range precondition.

Some behaviours follow from the code as written.
- `SpeedIncreaseRoutine` tests game over only after each wait (`GameManager.cs:170-178`).
  - The wait pending at a hit still applies one more capped step after the hit (`Game.StepAfterHit`).
  - If a restart comes before that wait ends, `ResetParams` clears game over before the test. The ramp then keeps running (`Game.RestartBeforeWaitKeepsRamp`).
  - If the test does see game over, the coroutine finishes. `ResetParams` does not start it again, and `GameManager` survives scene loads, so its `Start` runs only once. From then on the multiplier stays at its value, or at 1 after a reset (`Game.RampEndsForGood`).
- `GameManager.Update` raises `OnSpeedChanged` every frame (`GameManager.cs:90`). With the
  player subscribed, the speed-change flag is in practice set before every sample. The
  throttle model treats the event as an input.
- `OrbCollected` has no game-over guard, so the orb score can still grow after a hit
  (`Game.DistanceFrozenAfterHit` freezes only the distance).
- `ObjectPool.Return` has no guard against returning an object that is already pooled. Both
  `LevelSpawner` and `Collector` return hurdles. A double return would put one object in the
  pool twice.

## Model

| member | source | states |
|---|---|---|
| `SyncMessages.Create` | Assets/Scripts/Player/SyncMessage.cs:10-15 | the sample is stamped with the clock at capture and holds exactly the given position (and the flag passed at the call site) |
| `Sync.TryRelease` | Assets/Scripts/Player/SyncManager.cs:22-35 | a poll succeeds iff the buffer is non-empty and its head is due (`now - time >= delay`, inclusive); what it releases followed by what stays is the old buffer, so only the head can leave; on failure the out value is the default sample |
| `Sync.Step` | Assets/Scripts/Player/SyncManager.cs:20-35 | one call releases at most one message, only from a poll, and only a due one |
| `Sync.Replay` | Assets/Scripts/Player/SyncManager.cs:12-35 | runs any interleaving of sends and polls; its lemmas below state what it guarantees |
| `Sync.ReplayExactlyOnce` | Assets/Scripts/Player/SyncManager.cs:12-35 | delivered messages followed by the remaining buffer equal the initial buffer followed by all sent messages: no loss, no duplicate, no reordering, whatever the timestamps |
| `Sync.ReplayDeliversOnlyDue` | Assets/Scripts/Player/SyncManager.cs:27-31 | every delivered message was due at the clock of the poll that released it |
| `Sync.ReplayAtMostOnePerTry` | Assets/Scripts/Player/SyncManager.cs:26-31 | no more messages are delivered than there were polls |
| `Sync.HeadBlocks` | Assets/Scripts/Player/SyncManager.cs:26-34 | while the head is not due at any poll, nothing is delivered, even messages behind it that are already old enough |
| `Sync.DrainsWhenDue` | Assets/Scripts/Player/SyncManager.cs:22-31 | when every buffered message is due, as many polls as messages deliver all of them, in buffer order |
| `Sync.SyncManager.constructor` | Assets/Scripts/Player/SyncManager.cs:8-12 | the relay starts empty with the given delay and the invariant released + buffer == sent |
| `Sync.SyncManager.SendMessage` | Assets/Scripts/Player/SyncManager.cs:20 | the message is appended at the tail; earlier entries and the delay are unchanged |
| `Sync.SyncManager.TryGetMessage` | Assets/Scripts/Player/SyncManager.cs:22-35 | result, out value and new buffer are those of `TryRelease`; the released message is logged once, keeping released + buffer == sent |
| `Player.Tick` | Assets/Scripts/Player/PlayerController.cs:40-52 | an Update emits at most one sample, and does so exactly when the accumulated timer reaches the sync interval. The sample is stamped `now`, carries the current position and the pending flag, and the timer restarts at exactly 0 with the flag cleared. Otherwise the timer grows by `dt` and the flag is kept |
| `Player.TimerAccumulates` | Assets/Scripts/Player/PlayerController.cs:43-50 | over a run that emits nothing, the timer holds all the elapsed time; speed changes leave it alone |
| `Player.RunSplit` | Assets/Scripts/Player/PlayerController.cs:40-52 | running two stretches of inputs one after the other gives the concatenated samples and the second stretch's final state |
| `Player.TimerSinceLastSample` | Assets/Scripts/Player/PlayerController.cs:43-50 | if input k emits and nothing after it does, the final timer is exactly the time elapsed after input k: the remainder at emission is discarded |
| `Player.ThrottleRate` | Assets/Scripts/Player/PlayerController.cs:43-49 | over any run, samples × interval + final timer ≤ initial timer + elapsed time: each sample uses up at least a full interval of elapsed time |
| `Player.OneSamplePerFrame` | Assets/Scripts/Player/PlayerController.cs:44-51 | a run emits no more samples than it has Updates |
| `Player.FlagNeverDuplicated` | Assets/Scripts/Player/PlayerController.cs:44-51 | flagged samples plus a still-pending flag never outnumber the speed changes (plus one pending at the start) |
| `Player.FlagGoesToNextSample` | Assets/Scripts/Player/PlayerController.cs:44-51 | a pending flag is carried by the first following sample and by no later one; without a sample it stays pending |
| `Player.Advance` | Assets/Scripts/Player/PlayerController.cs:54-62 | a kinematic body does not move; otherwise it moves by speed × dt along +z only |
| `Player.PlayerController.constructor` | Assets/Scripts/Player/PlayerController.cs:12-16 | timer 0, no pending flag, body not kinematic |
| `Player.PlayerController.Update` | Assets/Scripts/Player/PlayerController.cs:40-52 | the new timer and flag are `Tick`'s, and the relay buffer grows by exactly the sample `Tick` emits (stamped `now`, at the current position, with the old flag); the relay's sent log grows by the same sample and its released log is unchanged |
| `Player.PlayerController.SpeedChanged` | Assets/Scripts/Player/PlayerController.cs:74-78 | sets the pending flag and changes nothing else |
| `Player.PlayerController.GameOver` | Assets/Scripts/Player/PlayerController.cs:80-84 | the body becomes kinematic without gravity; the throttle and position are unchanged |
| `Player.PlayerController.FixedUpdate` | Assets/Scripts/Player/PlayerController.cs:54-62 | the position becomes `Advance` at the manager's current speed, so after game over it stays put |
| `Ghost.TargetVelocity` | Assets/Scripts/Player/GhostController.cs:20 | moving at the computed velocity for one sync interval lands exactly on the sample's position |
| `Ghost.GhostController.constructor` | Assets/Scripts/Player/GhostController.cs:8-14 | the velocity and the body velocity start at zero, and no sample has been received |
| `Ghost.GhostController.Update` | Assets/Scripts/Player/GhostController.cs:16-22 | one poll of the relay; on release the velocity is `TargetVelocity` towards the sample, otherwise it is unchanged; the relay's released log grows by exactly the released sample and its sent log is unchanged; until a first sample is released the ghost's velocity stays zero |
| `Ghost.GhostController.FixedUpdate` | Assets/Scripts/Player/GhostController.cs:23-26 | the body velocity becomes exactly the stored velocity |
| `Pooling.GameObject.Instantiate` | Assets/Scripts/Pooling/ObjectPool.cs:15 | a new object copies the prefab's state and its hurdle id and length |
| `Pooling.ObjectPool.constructor` | Assets/Scripts/Pooling/ObjectPool.cs:5-10 | the pool starts empty, and so sound (all pooled objects inactive, none twice) |
| `Pooling.ObjectPool.Start` | Assets/Scripts/Pooling/ObjectPool.cs:13-19 | appends `initialSize` (none if not positive) new, distinct, inactive copies of the prefab; the pool stays sound |
| `Pooling.ObjectPool.Get` | Assets/Scripts/Pooling/ObjectPool.cs:22-31 | never fails: on an empty pool the item is a new copy of the prefab and the pool stays empty; otherwise it is the oldest pooled object and the pool loses exactly it; the item keeps its position (the prefab's, when new); the item is active and no longer pooled |
| `Pooling.ObjectPool.Return` | Assets/Scripts/Pooling/ObjectPool.cs:34-38 | the object is inactive and appended at the tail; the pool stays sound if the object was not already in it |
| `Spawning.NextSpawnPoint` | Assets/Scripts/Pooling/LevelSpawner.cs:57 | x and y are kept; the new segment's back edge meets the previous segment's front edge |
| `Spawning.Placements` | Assets/Scripts/Pooling/LevelSpawner.cs:54-59 | the centres of successive spawns, one per segment length |
| `Spawning.PlacementsTile` | Assets/Scripts/Pooling/LevelSpawner.cs:54-59 | the front edge of the k-th spawned segment lies exactly the sum of the first k+1 lengths beyond the first segment's front edge: no gaps, no overlaps |
| `Spawning.PlacementsAdvance` | Assets/Scripts/Pooling/LevelSpawner.cs:57 | with positive lengths every spawn point lies strictly beyond the previous one |
| `Spawning.LevelSpawner.constructor` | Assets/Scripts/Pooling/LevelSpawner.cs:6-15 | the field initialisers, with the previous length 0 before `Start` |
| `Spawning.LevelSpawner.Start` | Assets/Scripts/Pooling/LevelSpawner.cs:17-23 | the spawn point is the last existing segment's position, the previous length is 20, and the offsets are taken from the spawner's position |
| `Spawning.LevelSpawner.Update` | Assets/Scripts/Pooling/LevelSpawner.cs:25-31 | with a player, the trigger volume sits at its fixed offsets ahead of the player's z; without one it stays |
| `Spawning.LevelSpawner.SpawnRandomHurdle` | Assets/Scripts/Pooling/LevelSpawner.cs:47-60 | takes an object from the chosen pool as `Get` does, advances the spawn point by `NextSpawnPoint`, places the object exactly there and records its length as the previous length |
| `Spawning.LevelSpawner.OnTriggerEnter` | Assets/Scripts/Pooling/LevelSpawner.cs:32-45 | non-hurdles change nothing; a hurdle goes back to the pool its id names first (both pools stay sound when they were and the hurdle was not already pooled, the returning pool only if the spawned segment is not also in it), then exactly one segment is spawned from the chosen pool (the returned hurdle itself when that pool was empty). A returned hurdle that is not the spawned segment ends up inactive and keeps its position |
| `Game.ScoreOf` | Assets/Scripts/Core/GameManager.cs:54 | the total score minus the orb score is the floor of the distance |
| `Game.PlayerSpeed` | Assets/Scripts/Core/GameManager.cs:51 | with a non-negative base and a multiplier between 1 and the cap, the speed lies between the base speed and base × cap |
| `Game.SpeedStaysInRange` | Assets/Scripts/Core/GameManager.cs:51 | with a non-negative base and step and a cap ≥ 1, over any events the multiplier stays in [1, cap] and the speed stays in [base, base × cap] |
| `Game.GameManager.CurrentPlayerSpeed` | Assets/Scripts/Core/GameManager.cs:51 | the speed is the base speed times the multiplier |
| `Game.GameManager.TotalScore` | Assets/Scripts/Core/GameManager.cs:54 | the total score minus the orb score is the floor of the distance |
| `Game.CappedStep` | Assets/Scripts/Core/GameManager.cs:174-175 | the new multiplier is the smaller of multiplier + amount and the cap |
| `Game.Best` | Assets/Scripts/Core/GameManager.cs:141-146 | the high score after a hit is the larger of the old high score and the final score |
| `Game.Apply` | Assets/Scripts/Core/GameManager.cs:82-187 | no event lowers the high score; a hit ends the game with a high score at least the final score; a reset zeroes the score, clears game over and keeps the high score |
| `Game.HighScoreNeverDecreases` | Assets/Scripts/Core/GameManager.cs:138-151 | over any sequence of events, resets included, the high score never decreases |
| `Game.HighScoreCoversEveryHit` | Assets/Scripts/Core/GameManager.cs:141-145 | the final high score is at least the total score at every hit along the way |
| `Game.MultiplierStaysCapped` | Assets/Scripts/Core/GameManager.cs:174-175 | a multiplier at or below a cap (with cap ≥ 1, the reset value) never exceeds the cap |
| `Game.RampEndsForGood` | Assets/Scripts/Core/GameManager.cs:168-179 | once the speed coroutine has ended it never runs again, so the multiplier keeps its value or returns to 1 |
| `Game.StepAfterHit` | Assets/Scripts/Core/GameManager.cs:170-178 | with the coroutine waiting at a hit, its next step still raises the multiplier by one capped step, and only then does it stop |
| `Game.RestartBeforeWaitKeepsRamp` | Assets/Scripts/Core/GameManager.cs:170-187 | a hit followed by a reset before the coroutine's wait ends leaves the ramp running, one capped step above 1 |
| `Game.DistanceFrozenAfterHit` | Assets/Scripts/Core/GameManager.cs:85-88 | after a hit and before a reset, no number of frames changes the distance |
| `Game.GameManager.constructor` | Assets/Scripts/Core/GameManager.cs:19-74 | the inspector defaults (base 6, step 0.2, cap 2, 10 per orb, multiplier 1), a zero score and the stored high score |
| `Game.GameManager.Start` | Assets/Scripts/Core/GameManager.cs:76-80 | the speed coroutine is alive exactly when the game is not over |
| `Game.GameManager.Update` | Assets/Scripts/Core/GameManager.cs:82-91 | the distance grows by the current speed × dt, only while not game over |
| `Game.GameManager.OrbCollected` | Assets/Scripts/Core/GameManager.cs:129-132 | the orb score grows by exactly the orb points |
| `Game.GameManager.PlayerHit` | Assets/Scripts/Core/GameManager.cs:138-151 | the high score becomes the larger of itself and the total score, and the game is over |
| `Game.GameManager.SpeedIncreaseStep` | Assets/Scripts/Core/GameManager.cs:168-179 | while the coroutine is alive, the multiplier takes one capped step and the coroutine lives on only if the game is not over |
| `Game.GameManager.ResetParams` | Assets/Scripts/Core/GameManager.cs:181-187 | the distance and orb score are zeroed, the multiplier is 1 and game over is cleared; the high score is unchanged |
| `Game.GameManager.StartGame` | Assets/Scripts/Core/GameManager.cs:97-102 | the same reset as `ResetParams` |
| `Game.GameManager.Restart` | Assets/Scripts/Core/GameManager.cs:107-111 | the same reset as `ResetParams` |
| `Game.GameManager.GoToMainMenu` | Assets/Scripts/Core/GameManager.cs:116-120 | the same reset as `ResetParams` |

## Left out

- Unity engine calls are not modelled: `SetParent`, `Destroy`, `DontDestroyOnLoad`, the singleton `Awake` checks, `Physics.OverlapSphere`, `AddForce`, `SceneManager.LoadScene` and `Application.targetFrameRate`. They are foreign code. `Instantiate` is a constructor and `SetActive` a field write.
- Jumping and the ground check (`PlayerController.cs:63-73`) are physics and are not modelled.
- The rigid body's integration of velocity into position is done by the physics engine. The model stops at the velocity handed to the body.
- `Player.PlayerController.Update`: one position field stands for both `transform.localPosition` (read by `Update`) and `rb.position` (moved by `FixedUpdate`). This holds for a player without a parent transform.
- Saving and loading the high score with `PlayerPrefs` is storage I/O. The value loaded by `LoadHighScore` is a constructor parameter, and `SaveHighScore` is dropped.
- The coroutines' scheduling (`WaitForSeconds(speedIncreaseInterval)`) is not modelled. The wait elapsing is the explicit `SpeedTick` event.
- The subscriptions to `OnGameOver` and `OnSpeedChanged` and their invocations are wiring. The handlers are methods a caller invokes.
- The speed-trail effect in `SpeedChanged` is cosmetic and not modelled.
- `ResetOrbVisibility` after a return only re-enables orb meshes. Hurdle.cs and Orb.cs are not part of this model.
- `LevelSpawner`'s `spawnerType` only chooses where the pool index comes from. The index is an input, because the two `SyncManager` calls it would use do not exist in the source.
- `Spawning.LevelSpawner.Start`: the last child's position is a parameter. `worldEnv.GetChild(worldEnv.childCount - 1)` (`LevelSpawner.cs:19`) throws when the environment has no children, and the model does not capture that failure.
- `Spawning.LevelSpawner.OnTriggerEnter`: the model requires the hurdle's id and the chosen index to lie within the pool array. The source would throw an index exception otherwise.
- `Pooling.ObjectPool.Return`: soundness of the pool (all pooled objects inactive, none twice) is promised only when the object was not already pooled. The source has no guard against a double return.
- `Game.ScoreOf`: integers are unbounded. The 32-bit wrap-around of `orbScore` and the range limit of `Mathf.FloorToInt` are not modelled.
- Floating-point rounding is not modelled. Reals stand in for `float` throughout, so, for example, the throttle's comparison with 0.03 is exact.
