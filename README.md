# AR airsoft front end — a Dafny model of its rule-like core

The front end (Zeroth09/arfrontend) is a Next.js application for an
augmented-reality airsoft game. Players join a red team (*merah*) or a
white team (*putih*) and see targets through the camera. A socket client
keeps them in a room. This project models the parts of that code that
follow rules, and proves properties of them:

- **Session clients.**
  - `MultiplayerWebSocket` and the demo server `DemoMultiplayer` (`src/lib/websocket.ts`).
  - `GameWebSocket` and `apiUtils.handleError` (`src/lib/api.ts`).
  - The socket is an abstract ready state. What the client writes to it is
    recorded in order. A timer is the delay it would be scheduled with.
- **Detection registries.** Each keeps a list of targets and updates it in place:
  - `MultiplayerTargetDetection`
  - `RealHumanDetection`
  - `HumanDetection`
  - `TargetDetection`
  - `AdvancedTargetDetection`

  Each is a Dafny `class` with a `seq` field. Every method is specified by
  a function of the old list, and lemmas about those functions state what
  the code promises. Random numbers, `Date.now()`, sensor and camera
  readings, square roots and trigonometry are parameters.
- **Page reducers.** These are the `setGameState(prev => …)` updates of the
  game, demo, game-master, home and lobby pages. They are pure functions
  from the old state to the new one. Lemmas relate one step to many steps:
  a round ends after exactly its time, the clock stops at zero, ammunition
  never goes negative.

The code has no circuit breaker, no event-stream or HTTP fallback and no
health probe before connecting, and its reconnect back-off is linear
(1000·k ms).

Quirks of the code are kept and stated as lemmas:

- **Close after disconnect.** A socket closed by `disconnect()` still
  schedules a reconnect (`Sockets.SessionScenario`).
- **Stale box in `addRealHuman`.** A merge moves the human but keeps its
  old bounding box (`RealHuman.Absorb`).
- **No eviction in `HumanDetection`.** Every frame refreshes `lastSeen`,
  so nobody is ever evicted (`HumanDetect.NoEvictionAfterSweep`).
- **Game-master clock.** The clock never ends the game
  (`GameMasterPage.ClockRuns`).
- **Tie rules differ.** The game page gives a tie to merah, the demo page to
  putih (`GamePage.TickSpec`, `DemoPage.TickSpec`).
- **Lobby cannot start.** The lobby holds only the player it read back, so
  `canStartGame` never holds there (`LobbyPage.EnteredLobbyCannotStart`).

Modules: `Common` (options, teams, vectors, list filtering and means),
`Text` (decimal ids and the `m:ss` clock), `Reconnect`, `Sockets`, `Api`,
`MultiplayerDetection`, `RealHuman`, `HumanDetect`, `Targets`, `Advanced`,
`GamePage`, `DemoPage`, `GameMasterPage`, `HomePage`, `LobbyPage`.

## Model

| member | source | states |
|---|---|---|
| Reconnect.AttemptReconnect | src/lib/websocket.ts:72-83 | the counter never passes 5; a retry is scheduled iff the counter was below 5, after 1000 × the new counter ms |
| Reconnect.FailureRunDelays | src/lib/websocket.ts:72-83 | the k-th close in a row from counter a schedules 1000·(a+k+1) ms while a+k < 5 and nothing after |
| Reconnect.FailureRunBounded | src/lib/api.ts:330-341 | any number n of closes in a row schedules exactly min(n, 5 − a) retries |
| Reconnect.LinearBackoff | src/lib/websocket.ts:77-79 | consecutive scheduled retries are exactly one `reconnectDelay` (1000 ms) apart: linear, not exponential |
| Sockets.MultiplayerWebSocket.constructor | src/lib/websocket.ts:21-32 | no socket, counter 0, nothing written or delivered |
| Sockets.MultiplayerWebSocket.Connect | src/lib/websocket.ts:34-70 | a new socket on `{serverUrl}/game?playerId={playerId}` is connecting; a constructor that throws changes nothing |
| Sockets.MultiplayerWebSocket.SendMessage | src/lib/websocket.ts:85-91 | a frame is written iff the socket exists and is OPEN; otherwise the wire is unchanged |
| Sockets.MultiplayerWebSocket.OnOpen | src/lib/websocket.ts:38-47 | the counter resets to 0 and exactly one `player_join` carrying the session's own player id is written |
| Sockets.MultiplayerWebSocket.OnMessage | src/lib/websocket.ts:49-57 | a parsed frame is delivered to `onMessage`; a malformed one changes nothing |
| Sockets.MultiplayerWebSocket.AttemptReconnect | src/lib/websocket.ts:72-83 | counter and returned delay are those of `Reconnect.AttemptReconnect` on the old counter |
| Sockets.MultiplayerWebSocket.OnClose | src/lib/websocket.ts:59-62 | the socket is closed (or stays absent) and the reconnect decision is taken on the old counter |
| Sockets.MultiplayerWebSocket.SendPositionUpdate | src/lib/websocket.ts:94-101 | a `position_update` with the position and GPS fix is written iff the socket is OPEN |
| Sockets.MultiplayerWebSocket.SendShoot | src/lib/websocket.ts:104-111 | a `shoot` with target and crosshair is written iff the socket is OPEN |
| Sockets.MultiplayerWebSocket.SendHit | src/lib/websocket.ts:114-121 | a `hit` with target and damage is written iff the socket is OPEN |
| Sockets.MultiplayerWebSocket.SendElimination | src/lib/websocket.ts:124-131 | an `elimination` is written iff the socket is OPEN |
| Sockets.MultiplayerWebSocket.Disconnect | src/lib/websocket.ts:133-144 | `player_leave` (when open) goes out before `close()`, the socket is cleared, and with no socket nothing happens |
| Sockets.SessionScenario | src/lib/websocket.ts:34-144 | connect, open, disconnect writes join, leave, close in that order, and the close event that follows still schedules a retry after 1000 ms |
| Sockets.FailingServerScenario | src/lib/websocket.ts:59-83 | six failed connections schedule retries after 1, 2, 3, 4, 5 s and then none |
| Sockets.SetPlayer | src/lib/websocket.ts:196-226 | `players.set` replaces the entry with that id in place or appends it, keeping ids unique |
| Sockets.DemoPlayer | src/lib/websocket.ts:167-226 | demo players start alive with 100 health and no kills or deaths; odd players are merah, even players putih |
| Sockets.Damaged | src/lib/websocket.ts:284-289 | a hit removes exactly 25 health; the player is alive iff health stays positive, and gains a death when it does not |
| Sockets.DamagePreservesConsistency | src/lib/websocket.ts:282-293 | a hit keeps "alive iff health > 0, one death once out" and four hits eliminate a full-health player |
| Sockets.DemoMultiplayer.constructor | src/lib/websocket.ts:163-194 | players 1 and 2 exist, no handlers, nothing emitted, no interval |
| Sockets.DemoMultiplayer.On | src/lib/websocket.ts:321-323 | registers a handler for the event |
| Sockets.DemoMultiplayer.Off | src/lib/websocket.ts:325-327 | removes the handler for the event |
| Sockets.DemoMultiplayer.Emit | src/lib/websocket.ts:314-319 | an event reaches a handler only if one is registered for it |
| Sockets.DemoMultiplayer.OnJoinTimer | src/lib/websocket.ts:195-226 | player 3 or 4 is set in the map and a `player_join` is emitted for it |
| Sockets.DemoMultiplayer.Connect | src/lib/websocket.ts:229-233 | the update interval is running |
| Sockets.DemoMultiplayer.Disconnect | src/lib/websocket.ts:329-335 | the update interval is stopped |
| Sockets.DemoMultiplayer.OnInterval | src/lib/websocket.ts:233-251 | while the interval runs, every living player other than the local one moves to (50 + 600u, 50 + 300v) and is marked seen, everyone else is unchanged, and one `position_update` per moved player, in map order, with its new position and GPS fix, follows the earlier events |
| Sockets.MovedEvents | src/lib/websocket.ts:235-249 | the interval emits at most one event per player, all of them `position_update`, and none when no listed player other than the local one is alive |
| Sockets.DemoMultiplayer.HandleShoot | src/lib/websocket.ts:271-294 | players and events become those of `Shot`/`ShotEvents` on the old roster |
| Sockets.ShotSpec | src/lib/websocket.ts:271-294 | a shot changes only a living target within distance 100 of the crosshair, which loses exactly 25 health; any other shot changes nobody and emits nothing; `elimination` is emitted exactly when the target dies, and `hit` comes last |
| Sockets.DemoMultiplayer.HandlePositionUpdate | src/lib/websocket.ts:296-304 | the roster becomes `Relocated`: only the sender moves |
| Sockets.Relocated | src/lib/websocket.ts:296-304 | only the first entry with the sender's id gets the new position, GPS fix and last-seen time; an unknown sender changes nothing |
| Sockets.DemoMultiplayer.HandleHit | src/lib/websocket.ts:306-312 | the roster becomes `Credited`: only the sender gains a kill |
| Sockets.Credited | src/lib/websocket.ts:306-312 | only the first entry with the sender's id gains exactly one kill; an unknown sender changes nothing |
| Sockets.DemoMultiplayer.SendMessage | src/lib/websocket.ts:254-269 | a shoot message has the effect of `Shot`/`ShotEvents`, a position update that of `Relocated` and a hit that of `Credited`, the last two emitting nothing; any other type changes neither players nor events |
| Api.HandleError | src/lib/api.ts:274-285 | the server's `response.data.message` wins, then the `Error`'s message, then the fixed default text |
| Api.HandleErrorShowsSomething | src/lib/api.ts:274-285 | the result is empty exactly for an `Error` with an empty message and no server message |
| Api.ReplaceFirstSpec | src/lib/api.ts:304 | `replace` with a string pattern rewrites the first occurrence and leaves the rest |
| Api.ReplaceFirstAbsent | src/lib/api.ts:304 | a string without the pattern is left unchanged |
| Api.RoomSocketUrlIsSecure | src/lib/api.ts:304 | the room URL is `wss://backendairsoftar-production.up.railway.app/game/{roomId}?token={token}` |
| Api.GameWebSocket.constructor | src/lib/api.ts:289-295 | no socket, counter 0 |
| Api.GameWebSocket.Connect | src/lib/api.ts:297-304 | without a token (null or empty) nothing is created; otherwise the socket is connecting on the room URL |
| Api.GameWebSocket.OnOpen | src/lib/api.ts:306-309 | the counter resets to 0 |
| Api.GameWebSocket.OnMessage | src/lib/api.ts:311-318 | only parsed frames reach the callback |
| Api.GameWebSocket.OnClose | src/lib/api.ts:320-341 | the reconnect decision of `Reconnect.AttemptReconnect` is taken on the old counter, which stays ≤ 5 |
| Api.GameWebSocket.Send | src/lib/api.ts:343-347 | writes iff the socket is OPEN, silently drops otherwise |
| Api.GameWebSocket.Disconnect | src/lib/api.ts:349-354 | closes and clears the socket; a no-op without one |
| Api.NoTokenScenario | src/lib/api.ts:297-354 | without a token nothing can be sent and a repeated disconnect writes nothing |
| MultiplayerDetection.PixelAt | src/lib/multiplayerTargetDetection.ts:331-333 | pixel k of a frame w wide has x < w and row-major index k |
| MultiplayerDetection.ScanPixelsSpec | src/lib/multiplayerTargetDetection.ts:319-340 | the scan reports at most n pixels, each one passing the colour test with x < width, in strictly increasing scan order, and every passing pixel |
| MultiplayerDetection.MultiplayerTargetDetection.DetectSkinTones | src/lib/multiplayerTargetDetection.ts:319-340 | the byte loop in steps of 4 returns exactly the skin pixels of the frame |
| MultiplayerDetection.Refresh | src/lib/multiplayerTargetDetection.ts:348-353 | an update takes the new position, the larger confidence, the OR of `faceDetected` and the current time, and keeps everything else |
| MultiplayerDetection.UpsertSpec | src/lib/multiplayerTargetDetection.ts:343-354 | ids stay unique; a new id is appended; a known id's entry is refreshed in place and the others are unchanged |
| MultiplayerDetection.MultiplayerTargetDetection.AddTarget | src/lib/multiplayerTargetDetection.ts:343-354 | the list becomes the upsert of the target and ids stay unique |
| MultiplayerDetection.HumanCandidate | src/lib/multiplayerTargetDetection.ts:300-314 | the proposed target is a camera target with a face, confidence 0.7, id `human_{now}` |
| MultiplayerDetection.HumanBoxSpread | src/lib/multiplayerTargetDetection.ts:285-299 | a region that passes the guard holds two pixels more than 50 apart and comes from a frame wider than 62 and taller than 125 |
| MultiplayerDetection.MultiplayerTargetDetection.AddHumanTarget | src/lib/multiplayerTargetDetection.ts:284-316 | fewer than 100 pixels or a box outside the bounds adds nothing; otherwise the candidate is upserted |
| MultiplayerDetection.Drift | src/lib/multiplayerTargetDetection.ts:365-369 | only a moving target's position changes |
| MultiplayerDetection.SweepKeepsFresh | src/lib/multiplayerTargetDetection.ts:357-373 | the sweep keeps exactly the targets seen within 10000 ms, in order, each changed only by its drift |
| MultiplayerDetection.SweepIds | src/lib/multiplayerTargetDetection.ts:357-373 | the sweep keeps ids unique |
| MultiplayerDetection.MultiplayerTargetDetection.UpdateExistingTargets | src/lib/multiplayerTargetDetection.ts:357-373 | the list becomes the sweep of the old list |
| MultiplayerDetection.CombineOne | src/lib/multiplayerTargetDetection.ts:197-211 | the id is kept |
| MultiplayerDetection.CombineAllSpec | src/lib/multiplayerTargetDetection.ts:195-213 | only GPS targets change; a GPS target becomes combined iff a camera target lies within 50 on both axes, and then gains a face and the larger confidence; ids stay unique |
| MultiplayerDetection.MultiplayerTargetDetection.CombineDetections | src/lib/multiplayerTargetDetection.ts:195-213 | the in-place loop leaves the list equal to `CombineAll` of the old list |
| MultiplayerDetection.DetectedSpec | src/lib/multiplayerTargetDetection.ts:387-392 | a target is reported iff it is listed, has confidence > 0.6 and was seen less than 5000 ms ago |
| MultiplayerDetection.DetectedConfident | src/lib/multiplayerTargetDetection.ts:389-392 | every reported target has confidence > 0.6 |
| MultiplayerDetection.MultiplayerTargetDetection.GetDetectedTargets | src/lib/multiplayerTargetDetection.ts:387-406 | returns the reported targets, each one listed and confident |
| MultiplayerDetection.CountSourcesAddUp | src/lib/multiplayerTargetDetection.ts:427-430 | gps + human + combined counts equal the length |
| MultiplayerDetection.StatsSpec | src/lib/multiplayerTargetDetection.ts:424-434 | counts add up to the total; both averages are 0 on an empty set; the average confidence of a non-empty set exceeds 0.6 |
| MultiplayerDetection.MultiplayerTargetDetection.GetDetectionStats | src/lib/multiplayerTargetDetection.ts:424-434 | the stats of the reported targets, whose source counts add up |
| MultiplayerDetection.MultiplayerTargetDetection.GetTargetById | src/lib/multiplayerTargetDetection.ts:409-411 | `find`: the first listed target with that id, and none iff nobody has it |
| MultiplayerDetection.MultiplayerTargetDetection.RemoveTarget | src/lib/multiplayerTargetDetection.ts:414-416 | keeps exactly the targets with another id, in order |
| MultiplayerDetection.MultiplayerTargetDetection.ClearTargets | src/lib/multiplayerTargetDetection.ts:419-421 | the list is empty |
| MultiplayerDetection.MultiplayerTargetDetection.constructor | src/lib/multiplayerTargetDetection.ts:17-27 | an empty list |
| RealHuman.Xs | src/lib/realHumanDetection.ts:325-336 | the x coordinates of the keypoints |
| RealHuman.Ys | src/lib/realHumanDetection.ts:325-336 | the y coordinates of the keypoints |
| RealHuman.BodyCenterSpec | src/lib/realHumanDetection.ts:325-336 | (0,0) when no keypoint scores above 0.5; otherwise the mean of those, which lies between their smallest and largest coordinates |
| RealHuman.KeypointSpread | src/lib/realHumanDetection.ts:339-353 | never negative, and 0 with fewer than two strong keypoints |
| RealHuman.EstimateDistance | src/lib/realHumanDetection.ts:309-315 | at least 50, at most 500 for a box of non-negative area, and 500 − 10·area whenever above the floor |
| RealHuman.EstimateDistanceFromKeypoints | src/lib/realHumanDetection.ts:318-322 | between 50 and 300 |
| RealHuman.DistanceFromKeypointsMonotone | src/lib/realHumanDetection.ts:318-322 | a wider spread never gives a larger distance |
| RealHuman.Absorb | src/lib/realHumanDetection.ts:297-303 | a merge takes the new position, the larger confidence, the OR of `faceDetected` and the time, and keeps the rest, including the old box |
| RealHuman.MergeSpec | src/lib/realHumanDetection.ts:290-306 | the list grows by at most one; it is appended to iff no human is within 30 on both axes; otherwise the first such human absorbs the new one and the rest is unchanged |
| RealHuman.RealHumanDetection.AddRealHuman | src/lib/realHumanDetection.ts:290-306 | the list becomes the merge and grows by at most one |
| RealHuman.Drift | src/lib/realHumanDetection.ts:374-386 | only a moving human moves, and its box follows the new position |
| RealHuman.SweepKeepsFresh | src/lib/realHumanDetection.ts:368-388 | keeps exactly the humans seen within 15000 ms, in order, each changed only by its drift |
| RealHuman.RealHumanDetection.UpdateExistingHumans | src/lib/realHumanDetection.ts:368-388 | the list becomes the sweep, as long as the fresh humans |
| RealHuman.DetectedSpec | src/lib/realHumanDetection.ts:483-485 | a human is returned iff listed with confidence > 0.3 |
| RealHuman.RealHumanDetection.GetDetectedRealHumans | src/lib/realHumanDetection.ts:483-485 | exactly the listed humans with confidence > 0.3 |
| RealHuman.RealHumanDetection.GetRealHumanById | src/lib/realHumanDetection.ts:488-490 | `find`: the first listed human with that id, and none iff nobody has it |
| RealHuman.RemoveSpec | src/lib/realHumanDetection.ts:493-495 | removal keeps exactly the humans with another id; kept plus removed equals the list |
| RealHuman.RealHumanDetection.RemoveRealHuman | src/lib/realHumanDetection.ts:493-495 | every entry with the id is gone and the others stay in order |
| RealHuman.RealHumanDetection.ClearRealHumans | src/lib/realHumanDetection.ts:498-500 | the list is empty |
| RealHuman.RealHumanDetection.constructor | src/lib/realHumanDetection.ts:24-34 | an empty list |
| RealHuman.Confidences | src/lib/realHumanDetection.ts:503-513 | one confidence per human |
| RealHuman.Distances | src/lib/realHumanDetection.ts:503-513 | one distance per human |
| RealHuman.StatsSpec | src/lib/realHumanDetection.ts:503-513 | face, body and moving counts are at most the total; averages are 0 when empty; the average confidence lies between 0.3 and the largest |
| RealHuman.RealHumanDetection.GetRealDetectionStats | src/lib/realHumanDetection.ts:503-513 | the stats of the confident humans, whose counts are bounded by the total |
| HumanDetect.Candidate | src/lib/humanDetection.ts:155-171 | id `human_{now}_{i}`, confidence ≤ 0.9, a 50×100 box around the position, seen now |
| HumanDetect.AdmitAllSpec | src/lib/humanDetection.ts:173-180 | the old list is kept as a prefix, every added entry is a candidate, none lies within 50 on both axes of an earlier entry, and every candidate is either listed or near a listed human: existing humans are never updated |
| HumanDetect.AdmitAllCovers | src/lib/humanDetection.ts:173-180 | a candidate is left out only because a human within 50 on both axes is already listed |
| HumanDetect.Batch | src/lib/humanDetection.ts:151-171 | n candidates, the k-th built from the k-th draw |
| HumanDetect.BatchSize | src/lib/humanDetection.ts:149 | one or two humans per generation |
| HumanDetect.HumanDetection.GenerateHumanTargets | src/lib/humanDetection.ts:148-182 | the loop leaves the list equal to admitting the batch one candidate at a time |
| HumanDetect.MotionGateSquared | src/lib/humanDetection.ts:124-131 | with the magnitude the square root of the squared length, the gate magnitude > 2 is a squared length above 4 |
| HumanDetect.HumanDetection.DetectHumansFromMotion | src/lib/humanDetection.ts:117-134 | with the magnitude the root of the reading's squared length: no reading, or a squared length ≤ 4, changes nothing; above 4 a batch with the magnitude as confidence is admitted |
| HumanDetect.GeneratedConfidence | src/lib/humanDetection.ts:137-160 | the camera path's base confidence 1.0 always gives a candidate confidence of 0.9 |
| HumanDetect.HumanDetection.DetectHumansFromCamera | src/lib/humanDetection.ts:137-145 | with chance below 0.01 a batch with confidence 1.0 is admitted, otherwise nothing changes |
| HumanDetect.Step | src/lib/humanDetection.ts:191-206 | only position, box and last-seen change; a still human only gets `lastSeen = now` |
| HumanDetect.SweepSpec | src/lib/humanDetection.ts:185-208 | keeps exactly the humans seen within 30000 ms, in order, each stepped |
| HumanDetect.NoEvictionAfterSweep | src/lib/humanDetection.ts:185-208 | after an update, any later update within 30 s evicts nobody |
| HumanDetect.HumanDetection.UpdateExistingHumans | src/lib/humanDetection.ts:185-208 | the list becomes the sweep and every survivor is seen now |
| HumanDetect.HumanDetection.GetDetectedHumans | src/lib/humanDetection.ts:277-279 | exactly the listed humans with confidence > 0.3 |
| HumanDetect.HumanDetection.GetHumanById | src/lib/humanDetection.ts:282-284 | `find`: the first listed human with that id, and none iff nobody has it |
| HumanDetect.HumanDetection.RemoveHuman | src/lib/humanDetection.ts:287-289 | keeps exactly the humans with another id, in order |
| HumanDetect.HumanDetection.ClearHumans | src/lib/humanDetection.ts:292-294 | the list is empty |
| HumanDetect.HumanDetection.constructor | src/lib/humanDetection.ts:18-28 | an empty list |
| HumanDetect.Confidences | src/lib/humanDetection.ts:297-304 | one confidence per human |
| HumanDetect.Distances | src/lib/humanDetection.ts:297-304 | one distance per human |
| HumanDetect.StatsSpec | src/lib/humanDetection.ts:297-304 | moving ≤ total = list length; averages are 0 when empty and otherwise between the smallest and largest value |
| HumanDetect.HumanDetection.GetDetectionStats | src/lib/humanDetection.ts:297-304 | the stats of all humans, moving ≤ total |
| Targets.Count | src/lib/targetDetection.ts:119 | a batch has between base and base + 2 entries |
| Targets.Humans | src/lib/targetDetection.ts:115-142 | n people, the i-th built from the i-th draw |
| Targets.Devices | src/lib/targetDetection.ts:145-172 | n devices, the i-th built from the i-th draw |
| Targets.IndexedIdsDistinct | src/lib/targetDetection.ts:126 | ids `human_i` / `device_i` differ for different i |
| Targets.HumansShape | src/lib/targetDetection.ts:115-142 | 2 to 4 people with distinct ids `human_i`, health 3, confidence in [0.5, 1) |
| Targets.DevicesShape | src/lib/targetDetection.ts:145-172 | 1 to 3 devices with distinct ids `device_i`, health 2, confidence in [0.7, 1) |
| Targets.TargetDetection.GenerateSimulatedHumans | src/lib/targetDetection.ts:115-142 | the loop returns `Humans` of the batch size |
| Targets.TargetDetection.GenerateSimulatedDevices | src/lib/targetDetection.ts:145-172 | the loop returns `Devices` of the batch size |
| Targets.Overwrite | src/lib/targetDetection.ts:87-90 | an update replaces position, visibility and confidence and keeps id, kind, health and box |
| Targets.UpsertSpec | src/lib/targetDetection.ts:84-93 | ids stay unique; a new id is appended, a known one overwritten in place, the others unchanged |
| Targets.UpsertAllUnique | src/lib/targetDetection.ts:77-112 | a whole batch keeps ids unique and adds at most one entry per target |
| Targets.TargetDetection.Absorb | src/lib/targetDetection.ts:84-93 | the forEach loop leaves the list equal to upserting the batch in order, ids unique |
| Targets.TargetDetection.DetectHumanTargets | src/lib/targetDetection.ts:77-95 | without motion support nothing changes; otherwise the generated people are upserted |
| Targets.TargetDetection.DetectDeviceTargets | src/lib/targetDetection.ts:98-112 | the generated devices are upserted |
| Targets.TargetDetection.GetVisibleTargets | src/lib/targetDetection.ts:249-251 | exactly the visible targets |
| Targets.TargetDetection.GetTargetById | src/lib/targetDetection.ts:254-256 | `find`: the first listed target with that id, and none iff nobody has it |
| Targets.Wound | src/lib/targetDetection.ts:261-265 | health becomes max(0, new); a target at 0 is hidden; otherwise visibility is kept; nothing else changes |
| Targets.SetHealthSpec | src/lib/targetDetection.ts:259-267 | an unknown id changes nothing; otherwise only that target is wounded |
| Targets.TargetDetection.UpdateTargetHealth | src/lib/targetDetection.ts:259-267 | the list becomes `SetHealth` of the old list, ids unique |
| Targets.TargetDetection.RemoveTarget | src/lib/targetDetection.ts:270-272 | keeps exactly the targets with another id, in order |
| Targets.TargetDetection.ClearTargets | src/lib/targetDetection.ts:275-277 | the list is empty |
| Targets.TargetDetection.constructor | src/lib/targetDetection.ts:16-23 | an empty list |
| Advanced.Closeness | src/lib/advancedTargetDetection.ts:128 | the base chance is at least 0.1 and at most 1 for non-negative distances |
| Advanced.Visibility | src/lib/advancedTargetDetection.ts:124-134 | a target beyond the 500 m range is never visible |
| Advanced.VisibleOnLowRoll | src/lib/advancedTargetDetection.ts:124-134 | inside the range a roll below 0.07 always sees the target |
| Advanced.Confidence | src/lib/advancedTargetDetection.ts:137-143 | confidence lies in [0, 1] for any noise |
| Advanced.ConfidenceMonotone | src/lib/advancedTargetDetection.ts:137-143 | with the same noise a farther target is never more confident |
| Advanced.SignalStep | src/lib/advancedTargetDetection.ts:267-282 | signal stays in [0, 100], battery ≥ 0, last ping now |
| Advanced.SignalStepBounded | src/lib/advancedTargetDetection.ts:273-278 | signal moves by at most 1 and the battery never recharges |
| Advanced.SeededHumans | src/lib/advancedTargetDetection.ts:59-95 | the i-th person is built from the i-th seed |
| Advanced.SeededDevices | src/lib/advancedTargetDetection.ts:97-120 | the i-th phone is built from the i-th seed |
| Advanced.InitialIdsDistinct | src/lib/advancedTargetDetection.ts:59-120 | the eight literal ids are pairwise different |
| Advanced.InitialIdsUnique | src/lib/advancedTargetDetection.ts:57-121 | the initial list carries ids `human_1`…`human_5`, `device_1`…`device_3` in order, all distinct |
| Advanced.InitialShape | src/lib/advancedTargetDetection.ts:57-121 | five people with health 3, then three phones with health 2, signal 85/72/45, battery in [0, 100), all within range |
| Advanced.AdvancedTargetDetection.constructor | src/lib/advancedTargetDetection.ts:31-47 | the player is at the origin and the targets are the initial ones, ids unique |
| Advanced.AdvancedTargetDetection.InitializeTargets | src/lib/advancedTargetDetection.ts:57-121 | the two loops append the initial targets |
| Advanced.AdvancedTargetDetection.GetVisibleTargets | src/lib/advancedTargetDetection.ts:435-437 | exactly the visible targets |
| Advanced.AdvancedTargetDetection.GetTargetById | src/lib/advancedTargetDetection.ts:440-442 | `find`: the first listed target with that id, and none iff nobody has it |
| Advanced.Wound | src/lib/advancedTargetDetection.ts:447-451 | health becomes max(0, new) and a target at 0 is hidden; nothing else changes |
| Advanced.SetHealthSpec | src/lib/advancedTargetDetection.ts:445-453 | an unknown id is a no-op; otherwise only that target is wounded |
| Advanced.AdvancedTargetDetection.UpdateTargetHealth | src/lib/advancedTargetDetection.ts:445-453 | the list becomes `SetHealth` of the old list, ids unique |
| Advanced.AdvancedTargetDetection.RemoveTarget | src/lib/advancedTargetDetection.ts:456-458 | keeps exactly the targets with another id, in order |
| Advanced.AdvancedTargetDetection.ClearTargets | src/lib/advancedTargetDetection.ts:461-463 | the list is empty |
| Advanced.AdvancedTargetDetection.UpdatePlayerPosition | src/lib/advancedTargetDetection.ts:466-476 | the player position is set and each target's distance becomes its planar distance to it; nothing else changes |
| Text.FormatTimeRoundTrip | src/app/game/page.tsx:236-240 | the clock text ends in a colon and two second digits and reads back as the number of seconds it was made from |
| GamePage.AliveSplit | src/app/game/page.tsx:248-249 | the merah and putih alive counts add up to the living players |
| GamePage.TickSpec | src/app/game/page.tsx:152-184 | the clock drops by one but never below 0; at 0 the round finishes, the score is the alive counts and merah wins unless putih has strictly more |
| GamePage.RoundEndsOnTime | src/app/game/page.tsx:152-184 | a round with n seconds left is still playing for n − 1 ticks and finished after exactly n, players untouched |
| GamePage.Pick | src/app/game/page.tsx:208 | `floor(random × n)` is a valid index |
| GamePage.EliminateFinished | src/app/game/page.tsx:190 | a finished round is returned unchanged |
| GamePage.EliminateLastStanding | src/app/game/page.tsx:192-204 | with ≤ 1 alive the round finishes, the survivor's team wins (merah if none), the score is the alive counts |
| GamePage.EliminateOne | src/app/game/page.tsx:206-223 | otherwise nothing changes or exactly one living player is put out with health 0, the others untouched, one fewer alive, score equal to the alive counts |
| GamePage.HealthColor | src/app/game/page.tsx:242-246 | green iff health > 70, red iff health ≤ 30 |
| GamePage.HealthColorMonotone | src/app/game/page.tsx:242-246 | more health never shows a worse colour |
| DemoPage.Reset | src/app/demo/page.tsx:119-148 | waiting, 300 s, winner null, game time 0, two fresh players, one alive per team |
| DemoPage.StartGame | src/app/demo/page.tsx:104-108 | status countdown, nothing else changes |
| DemoPage.CountdownOver | src/app/demo/page.tsx:111-116 | status playing, nothing else changes |
| DemoPage.TickSpec | src/app/demo/page.tsx:72-97 | game time +1; the clock −1, or at ≤ 0 finished with clock 0, merah winning only with strictly more alive (a tie goes to putih) |
| DemoPage.GameLasts | src/app/demo/page.tsx:69-102 | a game playing with n seconds left finishes after exactly n seconds with game time + n, and stays so |
| DemoPage.StoppedClock | src/app/demo/page.tsx:69-70 | outside play time passing changes nothing |
| DemoPage.SimulateKillSpec | src/app/demo/page.tsx:150-186 | killer +1 kill; victim out with +1 death and 0 health; others unchanged; no team gains alive players; a team with none left loses; otherwise only players change |
| GameMasterPage.Start | src/app/game-master/page.tsx:72-77 | status playing from any status, nothing else changes |
| GameMasterPage.Pause | src/app/game-master/page.tsx:79-84 | paused iff it was playing; playing otherwise |
| GameMasterPage.PauseToggles | src/app/game-master/page.tsx:79-84 | pausing twice from playing or paused is the identity |
| GameMasterPage.Stop | src/app/game-master/page.tsx:86-91 | status finished, nothing else changes |
| GameMasterPage.SelectPlayer | src/app/game-master/page.tsx:93-99 | the player is selected and the view is `player`; nothing else changes |
| GameMasterPage.SpectatorMode | src/app/game-master/page.tsx:101-107 | the view is `spectator`; nothing else changes |
| GameMasterPage.ClockRuns | src/app/game-master/page.tsx:59-70 | k ≥ 1 seconds of play leave max(0, t − k) on the clock and nothing else changed; outside play nothing changes |
| GameMasterPage.Rosters | src/app/game-master/page.tsx:115-117 | the team lists hold exactly each team's players and split the list; alive ≤ total |
| HomePage.Initial | src/app/page.tsx:29-41 | loading, 30 of 30 rounds, 300 s, no target |
| HomePage.LoadingDone | src/app/page.tsx:46-53 | loading ends and the menu shows |
| HomePage.StartGame | src/app/page.tsx:159-162 | menu off, game on |
| HomePage.GoBack | src/app/page.tsx:220-222 | game off, menu on |
| HomePage.SelectTarget | src/app/page.tsx:174-176 | the target is selected |
| HomePage.Reload | src/app/page.tsx:215-218 | ammo becomes `maxAmmo` |
| HomePage.FireSpec | src/app/page.tsx:185-213 | one round is spent iff ammo > 0 and a target is selected, otherwise nothing changes; 0 ≤ ammo ≤ max is kept by firing and reloading |
| HomePage.FireRepeatedly | src/app/page.tsx:185-213 | n shots at a selected target leave max(0, ammo − n) rounds |
| HomePage.ClockEndsGame | src/app/page.tsx:127-139 | a game with t seconds counts down to 0 in t ticks and the next tick returns to the menu |
| LobbyPage.OrElse | src/app/lobby/page.tsx:37-39 | JavaScript's logical or on a stored field: a present non-empty value wins, otherwise the fallback |
| LobbyPage.EnterSpec | src/app/lobby/page.tsx:29-62 | nothing stored leaves the lobby empty; otherwise one player, `Unknown Player`/`merah` filling missing fields, `Player`/`merah` after a parse error |
| LobbyPage.CanStartSpec | src/app/lobby/page.tsx:64-67 | the game can start iff some player is merah and some player putih |
| LobbyPage.TeamsSplit | src/app/lobby/page.tsx:64-65 | with only merah and putih teams stored, the two lists split the players |
| LobbyPage.EnteredLobbyCannotStart | src/app/lobby/page.tsx:29-67 | the lobby as filled on entry can never start |
| LobbyPage.StartGame | src/app/lobby/page.tsx:69-73 | status starting, nothing else changes |

## Left out

- Canvas drawing, `requestAnimationFrame` loops, `getUserMedia`, geolocation watchers and the MediaPipe face and body models: browser and foreign APIs.
- `startDetection`/`stopDetection` and the frame loops that call the modelled steps: scheduling only.
- The haversine distance and `detectGPSTargets`/`addGPSTarget`/`getNearbyPlayers` in `multiplayerTargetDetection.ts`: floating-point trigonometry over sensor input.
- The cosine and sine placement in `initializeTargets` and the perspective `calculateBoundingBox`: floating-point trigonometry. Positions and boxes are inputs (`Advanced.Env`).
- `updateTargets`/`updateHumanMovement` in `advancedTargetDetection.ts`: a random walk normalised by a square root, followed by the perspective box.
- `Math.random()` and `Date.now()`: every draw and reading is a parameter.
- Real timers: a `setTimeout`/`setInterval` is either a returned delay or a function applied once per firing (`Ticks`, `Seconds`).
- `apiCall`, `testAPIConnection`, the auth/game/stats wrappers, `isAuthenticated` and `getUserFromToken` in `api.ts`: `fetch`, `atob` and `localStorage` I/O.
- `MultiplayerWebSocket.on`/`off`: map edits that `onmessage` never consults.
- `DemoMultiplayer.getPlayers`: returns the list.
- JSX rendering in all pages, the status/profile/auth pages, the components, the layout and the build configuration.
- Number precision: coordinates, confidences and distances are mathematical reals and counters unbounded integers, so floating-point rounding is not modelled.
- Sockets.MultiplayerWebSocket.Connect: the handlers installed on each new socket are modelled once. The old socket that a reconnect replaces is not tracked.
- Sockets.DemoMultiplayer.Connect: a second `connect()` starts a second interval in the source. The model keeps a single running flag.
- MultiplayerDetection.IsSkinAt: the green and blue bytes of a final partial pixel are `undefined` in the source. The model treats those comparisons as false, as JavaScript does.
- LobbyPage.EnterSpec: `JSON.parse` is not modelled. A stored record is either unreadable or an object whose fields are absent or strings. `new Date(...)` is kept as the stored text.
- HomePage.FireSpec: the hit roll and the alerts only choose a message and are not state.
- Text.FormatTimeRoundTrip: stated for non-negative whole seconds, which is all the pages pass.
