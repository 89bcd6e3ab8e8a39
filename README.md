# ShadowShift core in Dafny

A model of the game logic of ShadowShift, an endless runner written as Unity
C# scripts, together with proofs about that model. It covers four components:

- **Platform field** (`Spawning`, platform_spawner.cs). A pool of platform
  objects that only grows. A spawn cursor `lastSpawnZ` advances by a random
  spacing at each spawn. Spawning is driven by the player's progress, and
  platforms left behind the player are recycled.
- **Platform** (`Platforms`, platform.cs). The stability flag and the renderer
  material are kept together. A one-shot break arms a delayed `DisablePlatform`.
  Unstable platforms move on a ping-pong path.
- **Jump logic** (`Player`, player_controller.cs). A coyote-time countdown and
  a jump-buffer countdown. A jump impulse with random jitter, a short hop when
  the button is let go early, and the gravity shaping of `HandleGravity`.
- **Score** (`Scoring`, score_manager.cs). Score accrues with time and a
  penalty is floored at zero. The high score is kept as a running maximum and
  mirrored to the persistent `PlayerPrefs` store under `"HighScore"`.

`Engine` holds stand-ins for the engine types the scripts use: `Vector2` and
`Vector3` over `real`, and what `Random.Range` and `Random.value` guarantee.

Each script becomes a class with the script's fields. Every method states its
new state as a pure function of the old state and its inputs: `AfterBreak`,
`Spawned`, `Jump`, `Accrued` and so on. The lemmas are proved about those
functions.

The inputs the engine supplies become parameters, each constrained to the range
the engine guarantees:

- the clock (`Time.time`) and the frame time (`Time.deltaTime`);
- the button edges and the held state;
- the player's z position;
- the ground-overlap result;
- the random draws. A `SpawnDraw` holds, in drawing order, the spacing, the
  lateral offset and the stability roll of one spawn.

A `MonoBehaviour.Invoke` with a delay becomes a queue of due times on the
platform. The host polls that queue once per frame with the clock
(`Platform.RunInvokes`).

Where the code and the design description disagree, the model follows the code:

- `startPosition` is captured once, when the instance is created. A respawn
  does not reset it. So an unstable platform, once respawned, moves on the
  swing of the prefab's own position, not of the place it was spawned at
  (`RespawnedSwingsFromPrefab`).
- The design promises that nothing stale survives pool reuse. The code does
  not cancel a pending `DisablePlatform` when a platform is recycled. Such a
  platform, once respawned, is still switched off when the old invoke comes due
  (`PendingBreakSurvivesReuse`).
- The design describes the coyote timer as floored. The code lets both
  countdowns go below zero. The model does the same, and
  `AirborneFramesDrain` states the exact amount.
- `lastSpawnZ` starts at 0, not at the player's position.
- `SpawnInitialPlatforms` draws a spacing into a local `currentZ` that is never
  read. The model does not model that draw.

## Model

| member | source | states |
|---|---|---|
| `Platforms.PingPong` | Assets/Scripts/platform.cs:51 | `Mathf.PingPong(t, 1)` lies in [0, 1]. It equals `t` on [0, 1] and `2 - t` on [1, 2]. |
| `Platforms.PingPongPeriodic` | Assets/Scripts/platform.cs:51 | The wave repeats with period 2. |
| `Platforms.PingPongEven` | Assets/Scripts/platform.cs:51 | The wave is symmetric about 0. |
| `Platforms.SwingPoint` | Assets/Scripts/platform.cs:49-53 | The swing position lies, coordinate by coordinate, between the anchor and the anchor plus the direction. |
| `Platforms.Initial` | Assets/Scripts/platform.cs:21-26 | A fresh instance is active, not breaking, has nothing pending and no particle burst. It keeps the prefab's stability and position, has the prefab's material, and is consistent. |
| `Platforms.AfterSetUnstable` | Assets/Scripts/platform.cs:40-44 | The flag becomes `b`. The material is the unstable one iff `b` and the stable one iff not `b`. Consistency is kept and nothing else changes. |
| `Platforms.AfterBreak` | Assets/Scripts/platform.cs:58-71 | On an unstable platform that is not breaking: sets the breaking flag, appends one disable due at `now + breakDelay` and counts one particle burst when there are particles. Otherwise nothing changes. Stability never changes. Consistency is kept. |
| `Platforms.AfterDisable` | Assets/Scripts/platform.cs:76-80 | The platform is inactive and not breaking, and nothing else changes. |
| `Platforms.AfterInvokes` | Assets/Scripts/platform.cs:63 | A due disable runs and leaves the queue. A disable not yet due changes nothing. Consistency is kept. |
| `Platforms.AfterUpdate` | Assets/Scripts/platform.cs:28-35 | A stable platform is untouched. An unstable one moves onto its swing from the anchor, and only its position changes. |
| `Platforms.BreakIsOneShot` | Assets/Scripts/platform.cs:60-63 | Two breaks in a row equal one break and schedule at most one disable. |
| `Platforms.BreakThenDisable` | Assets/Scripts/platform.cs:58-80 | A break followed by a poll after the delay leaves the platform inactive, not breaking, with nothing pending and with its stability, position and material kept. |
| `Platforms.NoDisableBeforeDelay` | Assets/Scripts/platform.cs:63 | A poll before the delay has passed changes nothing. |
| `Platforms.Platform.constructor` | Assets/Scripts/platform.cs:21-26 | `startPosition` is the position of the prefab. The state is `Initial`. |
| `Platforms.Platform.SetUnstable` | Assets/Scripts/platform.cs:40-44 | The new state is `AfterSetUnstable` of the old one, and validity is kept. |
| `Platforms.Platform.BreakPlatform` | Assets/Scripts/platform.cs:58-71 | The new state is `AfterBreak` of the old one, and validity is kept. |
| `Platforms.Platform.DisablePlatform` | Assets/Scripts/platform.cs:76-80 | The new state is `AfterDisable` of the old one. |
| `Platforms.Platform.RunInvokes` | Assets/Scripts/platform.cs:63 | The new state is `AfterInvokes` of the old one, and validity is kept. |
| `Platforms.Platform.MovePlatform` | Assets/Scripts/platform.cs:49-53 | The position is the swing point from `startPosition` at `time * moveSpeed`, within one direction length of it. |
| `Platforms.Platform.Update` | Assets/Scripts/platform.cs:28-35 | The new state is `AfterUpdate` from `startPosition`. |
| `Spawning.FirstInactive` | Assets/Scripts/platform_spawner.cs:109-119 | The index of the first inactive platform, at most the pool size. `FirstInactiveIsFirst` and `FirstInactiveAt` state what it picks. |
| `Spawning.FirstInactiveIsFirst` | Assets/Scripts/platform_spawner.cs:109-119 | Every platform before `FirstInactive` is active and the one at it is inactive. It equals the pool size exactly when every platform is active. |
| `Spawning.FirstInactiveAt` | Assets/Scripts/platform_spawner.cs:109-119 | An inactive platform with only active ones before it is the one `FirstInactive` picks. |
| `Spawning.Placed` | Assets/Scripts/platform_spawner.cs:79-88 | The placed platform is active at (`x`, 0, `z`), with its stability and matching material from the roll. Its break state is carried over and consistency is kept. |
| `Spawning.Spawned` | Assets/Scripts/platform_spawner.cs:67-89 | One `SpawnPlatform` on the pool's states. The pool keeps its size or grows by one; `SpawnedPlacesFirstInactive` states which platform is placed and that all others are kept. |
| `Spawning.SpawnedPlacesFirstInactive` | Assets/Scripts/platform_spawner.cs:67-89 | One spawn places exactly the first inactive platform, or a fresh one appended. The pool grows only when every platform was active, and then by one. Every other platform keeps its place and its state. |
| `Spawning.SpawnedAsUpdate` | Assets/Scripts/platform_spawner.cs:70-88 | A spawn is one update of the pool, grown first only when no platform is inactive. |
| `Spawning.SpawnedKeepsConsistent` | Assets/Scripts/platform_spawner.cs:67-89 | A spawn keeps every platform's flag and material in step and its break state coherent. |
| `Spawning.SpawnMany` | Assets/Scripts/platform_spawner.cs:57-61 | One spawn per draw, the cursor advanced before each. The pool grows by at most one platform per spawn; `SpawnManyReusesInOrder` states which platforms are placed. |
| `Spawning.SpawnManyKeepsConsistent` | Assets/Scripts/platform_spawner.cs:57-61 | A run of spawns keeps every platform consistent. |
| `Spawning.UnstableSpawnSwingsFromPrefab` | Assets/Scripts/platform.cs:25-52 | A platform spawned unstable moves, on its first update, onto the swing of the prefab's position, whatever spawn position it was given. |
| `Spawning.PendingBreakSurvivesReuse` | Assets/Scripts/platform_spawner.cs:94-104 | A platform recycled while breaking and then respawned is active and still breaking, and the old disable switches it off. |
| `Spawning.Recycled` | Assets/Scripts/platform_spawner.cs:99-102 | Afterwards no platform strictly behind the threshold is active. A platform at or ahead of the threshold is unchanged. Only the active flag can change. |
| `Spawning.RecycledAll` | Assets/Scripts/platform_spawner.cs:94-104 | Recycling keeps the pool's size and recycles each platform on its own. |
| `Spawning.RecycledAllKeepsConsistent` | Assets/Scripts/platform_spawner.cs:94-104 | Recycling keeps every platform consistent. |
| `Spawning.RecycleIdempotent` | Assets/Scripts/platform_spawner.cs:94-104 | Recycling twice with the same threshold is recycling once. |
| `Spawning.SpawnManyReusesInOrder` | Assets/Scripts/platform_spawner.cs:53-62 | On a pool with no active platform, `m` spawns place its first `m` platforms in order, each at the cursor after its own spacing. No platform is created. |
| `Spawning.InitialSpawnsFillPool` | Assets/Scripts/platform_spawner.cs:19-23 | After `InitializePool` and `SpawnInitialPlatforms`, the pool keeps its size. Every platform is active at (`x_i`, 0, cursor after draw `i`) with the stability its roll gave. |
| `Spawning.Cursor` | Assets/Scripts/platform_spawner.cs:79-80 | The cursor after the first `i` spawns: the start plus the first `i` spacings. `CursorAdvance` bounds it. |
| `Spawning.CursorAdvancesAtLeast` | Assets/Scripts/platform_spawner.cs:79-80 | Over spawns `i` to `j`, the cursor advances by at least `min` per spawn. |
| `Spawning.CursorAdvancesAtMost` | Assets/Scripts/platform_spawner.cs:79-80 | Over spawns `i` to `j`, the cursor advances by at most `max` per spawn. |
| `Spawning.CursorBetween` | Assets/Scripts/platform_spawner.cs:79-80 | With every spacing in [lo, hi], the cursor advances by between `lo` and `hi` per spawn, and strictly when `lo > 0`. |
| `Spawning.SpacingsWithin` | Assets/Scripts/platform_spawner.cs:79 | Each drawn spacing lies between the smaller and the larger of the two bounds. |
| `Spawning.CursorAdvance` | Assets/Scripts/platform_spawner.cs:79-80 | With draws between `min` and `max`, in either order, the cursor advances by between the smaller and the larger bound per spawn. It strictly increases when both bounds are positive. |
| `Spawning.Dormant` | Assets/Scripts/platform_spawner.cs:44-45 | A pooled instance is inactive and consistent, and is otherwise a fresh instance. |
| `Spawning.Dormants` | Assets/Scripts/platform_spawner.cs:40-48 | `n` pooled instances, all dormant. |
| `Spawning.DormantsKeepConsistent` | Assets/Scripts/platform_spawner.cs:40-48 | Adding pooled instances keeps every platform consistent. |
| `Spawning.PlatformSpawner.constructor` | Assets/Scripts/platform_spawner.cs:16-17 | A new spawner has an empty pool, the cursor at 0 and its settings. |
| `Spawning.PlatformSpawner.Awake` | Assets/Scripts/platform_spawner.cs:19-23 | The new state is `SpawnMany` of the draws over the pool grown by `initialPoolSize` dormant instances. From an empty pool, it leaves exactly `initialPoolSize` platforms, all active. A pool of consistent platforms stays consistent. |
| `Spawning.PlatformSpawner.InitializePool` | Assets/Scripts/platform_spawner.cs:40-48 | Appends exactly `initialPoolSize` fresh, inactive instances and keeps the old pool as a prefix. |
| `Spawning.PlatformSpawner.SpawnInitialPlatforms` | Assets/Scripts/platform_spawner.cs:53-62 | One spawn per draw. The cursor is the running sum of the spacings. |
| `Spawning.PlatformSpawner.SpawnPlatform` | Assets/Scripts/platform_spawner.cs:67-89 | The cursor advances by the drawn spacing. The pool becomes `Spawned` of the old pool at the new cursor. The old pool is a prefix of the new one. |
| `Spawning.PlatformSpawner.Place` | Assets/Scripts/platform_spawner.cs:81-88 | Only the platform at `k` changes, and it becomes `Placed`. |
| `Spawning.PlatformSpawner.AddToPool` | Assets/Scripts/platform_spawner.cs:74-75 | Appends the new instance and keeps the pool's instances distinct. |
| `Spawning.PlatformSpawner.AcquirePlatform` | Assets/Scripts/platform_spawner.cs:70-76 | Returns the platform at `FirstInactive`. When there is none, a fresh instance is appended. No platform already in the pool changes. |
| `Spawning.PlatformSpawner.RecyclePlatforms` | Assets/Scripts/platform_spawner.cs:94-104 | The pool is unchanged as a list and its states become `RecycledAll` at `playerZ - recycleDistance`. |
| `Spawning.PlatformSpawner.GetInactivePlatform` | Assets/Scripts/platform_spawner.cs:109-119 | Returns null exactly when every platform is active; otherwise returns the first inactive one in pool order. |
| `Spawning.PlatformSpawner.Update` | Assets/Scripts/platform_spawner.cs:25-35 | Spawns one platform exactly when `playerZ + spawnDistance > lastSpawnZ`, then recycles. The pool keeps its prefix, and without a spawn it is unchanged. A pool of consistent platforms stays consistent. |
| `Spawning.PlatformSpawner.RespawnedSwingsFromPrefab` | Assets/Scripts/platform.cs:25-52 | A pooled platform placed unstable at any (`x`, `z`) moves, on its next `Update`, onto the swing from the prefab's position, within one direction length of it. |
| `Spawning.PlatformSpawner.PlatformsValid` | Assets/Scripts/platform.cs:40-44 | When every state in the pool is consistent, every platform in it is valid. |
| `Player.CoyoteAfter` | Assets/Scripts/player_controller.cs:75-82 | The coyote countdown: refilled to `coyoteTime` on the ground, otherwise run down by `dt` with no floor. `AirborneFramesDrain` and `CoyoteJump` state its effect. |
| `Player.BufferAfter` | Assets/Scripts/player_controller.cs:84-92 | The buffer countdown: refilled to `jumpBufferTime` by a press, otherwise run down by `dt`. `AirborneFramesDrain` and `JumpBufferWindow` state its effect. |
| `Player.Fires` | Assets/Scripts/player_controller.cs:95 | A jump fires iff both countdowns are still positive after this frame. `Jump` states what firing does. |
| `Player.Jump` | Assets/Scripts/player_controller.cs:72-110 | Counters refill or run down by `dt`. A jump fires iff both are positive; it zeroes both, sets `isJumping` and sets vy to `jumpForce + jitter`. A release while rising halves vy and clears `isJumping`. vx never changes. |
| `Player.Gravity` | Assets/Scripts/player_controller.cs:115-125 | Three cases on the sign of vy (falling, rising without the button held, otherwise). Only vy changes. |
| `Player.GravityKeepsTimers` | Assets/Scripts/player_controller.cs:115-125 | Gravity shaping leaves both counters and `isJumping` alone. |
| `Player.NoJumpWithoutFreshPress` | Assets/Scripts/player_controller.cs:85-101 | With `dt > 0`, no jump fires on the frame after a jump without a fresh press. |
| `Player.Tick` | Assets/Scripts/player_controller.cs:36-41 | One `Update`: `HandleJump`, then `HandleGravity`. `GravityKeepsTimers` states that the countdowns come from the jump step alone. |
| `Player.AirborneFramesDrain` | Assets/Scripts/player_controller.cs:75-92 | Airborne frames without a press, once either window is closed, fire no jump on any of them and run both counters down by exactly the time elapsed, with no floor. |
| `Player.JumpBufferWindow` | Assets/Scripts/player_controller.cs:84-101 | A press in the air, then airborne frames, then a landing: the landing jumps iff less than `jumpBufferTime` has passed since the press. |
| `Player.JumpBufferExample` | Assets/Scripts/player_controller.cs:84-101 | With 0.1 s windows, a press 0.05 s before landing jumps and one 0.2 s before does not. |
| `Player.ShortHopExample` | Assets/Scripts/player_controller.cs:105-109 | Letting go while rising at 12 gives 6 and clears `isJumping`. |
| `Player.CoyoteJump` | Assets/Scripts/player_controller.cs:74-101 | After a grounded frame without a jump and then airborne frames without a press, a press jumps iff less than `coyoteTime` has passed since the grounded frame. |
| `Player.CoyoteExample` | Assets/Scripts/player_controller.cs:74-101 | With a 0.1 s coyote time, a press 0.05 s after leaving the ground jumps and one 0.15 s after does not. |
| `Player.PlayerController.constructor` | Assets/Scripts/player_controller.cs:25-34 | Counters at 0, not jumping, not grounded, at rest. |
| `Player.PlayerController.FixedUpdate` | Assets/Scripts/player_controller.cs:43-46 | The ground flag is the overlap result. |
| `Player.PlayerController.HandleJump` | Assets/Scripts/player_controller.cs:72-110 | The new state is `Jump` of the old one, with the ground flag as input. |
| `Player.PlayerController.HandleGravity` | Assets/Scripts/player_controller.cs:115-125 | The new state is `Gravity` of the old one. |
| `Player.PlayerController.Update` | Assets/Scripts/player_controller.cs:36-41 | The new state is `Tick` (jump, then gravity) of the old one. |
| `Scoring.Load` | Assets/Scripts/score_manager.cs:33 | The high score a fresh component starts from: the stored `"HighScore"`, or 0 when absent. |
| `Scoring.Accrued` | Assets/Scripts/score_manager.cs:37-49 | The score grows by exactly `dt * rate`. Afterwards the high score is at least the score and at least the old high score. It rises only when the score passes it, and then to the score. |
| `Scoring.Saved` | Assets/Scripts/score_manager.cs:44-48 | The store is written only when the high score rises, and then with the new high score. |
| `Scoring.Penalized` | Assets/Scripts/score_manager.cs:55-59 | The score becomes max(score - penalty, 0), so it is never negative. The high score is unchanged. |
| `Scoring.PenaltyFloorsAtZero` | Assets/Scripts/score_manager.cs:57-58 | 30 with a penalty of 50 gives 0. |
| `Scoring.HighScoreNeverDecreases` | Assets/Scripts/score_manager.cs:44-46 | Over any run of frames and failures, the high score never decreases. |
| `Scoring.StoreMirrorsHighScore` | Assets/Scripts/score_manager.cs:33-47 | Once the stored `"HighScore"` equals the high score, as after loading, it stays equal over any run. |
| `Scoring.OtherKeysUntouched` | Assets/Scripts/score_manager.cs:47 | No other key of the store is ever written. |
| `Scoring.ScoreStaysInBounds` | Assets/Scripts/score_manager.cs:37-59 | With non-negative rate, frame times and penalty, 0 <= score <= high score holds over any run. |
| `Scoring.Prefs.GetFloat` | Assets/Scripts/score_manager.cs:33 | Returns the stored value, or the default when the key is absent. |
| `Scoring.Prefs.SetFloat` | Assets/Scripts/score_manager.cs:47 | Writes exactly one key. |
| `Scoring.ScoreManager.constructor` | Assets/Scripts/score_manager.cs:19-35 | The score starts at 0. The high score is the stored value, or 0 when absent. |
| `Scoring.ScoreManager.Update` | Assets/Scripts/score_manager.cs:37-50 | The new scores are `Accrued` of the old ones. The store becomes `Saved`. |
| `Scoring.ScoreManager.ApplyPenalty` | Assets/Scripts/score_manager.cs:55-59 | The new scores are `Penalized` of the old ones. |

## Left out

- `HandleMovement` (player_controller.cs:51-67) is not modelled. It uses
  `Mathf.Pow` with a fractional exponent and applies a Rigidbody force, and
  neither has a counterpart over the reals. The force does not change the
  velocity within the same `Update`, so `HandleJump` and then `HandleGravity`
  see the same velocity with or without it.
- The ground test in `CheckGrounded` is an overlap query against the
  physics scene. Its boolean result is an input of `FixedUpdate`.
- `RealmManager` (realm_manager.cs) is left out. It consists of coroutines
  and camera effects only.
- Prefab selection is not modelled. `Random.Range(0, platformPrefabs.Length)`
  picks one of several prefabs; the model has a single prefab, and
  `Instantiate` becomes the creation of a fresh `Platform` from it.
- Unity's `Input`, `Time` and `Random` become parameters. The draws are only
  constrained to their ranges; uniformity is not modelled.
- Renderer, collider and particle system are not modelled. The material
  becomes a tag, and particle playback becomes a burst counter.
  `activeInHierarchy` becomes the active flag.
- Velocity is not carried across frames by physics. `Player.Run` chains
  `Update`s with nothing in between, so base gravity and collisions do not
  change the velocity from one frame to the next. The velocity lemmas are
  about a single frame, and the countdown lemmas do not read the velocity.
- `Platform.Update` runs only on active objects; the host is expected to call
  it only on those, and the model does not check this.
- A pending `Invoke` is assumed to fire even after its object was deactivated.
- TMP text output, `FloorToInt` formatting and the singleton `Instance` guard
  of `ScoreManager` are not modelled.
- Float arithmetic is not modelled: `float` becomes `real`, with no rounding
  and no overflow. `PlayerPrefs` keeps exact reals.
- `initialPoolSize` becomes a `nat`. A negative value in the source makes both
  loops run zero times, which is `initialPoolSize == 0` here.
