# Retro Race in Dafny

A model of the race engine of Retro Race, a top-down browser racing game.
In the game, the player drives against three AI cars for three laps of an
oval track. Power-ups lie on the track. A finished race enters a top-ten
high-score list.

The model covers six parts of the game:

- **Utils** (`utils.dfy`): the geometry and formatting helpers. These are
  distance, angle normalisation, lerp, clamp, the point-in-rectangle test,
  the random helpers and the `M:SS` time format.
- **Cars** (`cars.dfy`): the car. This covers its per-frame kinematics under
  player or AI control, its power-up and collision timers, its oriented
  corners, the axis-aligned overlap test and the bounce response.
- **Tracks** (`track.dfy`): the track. This covers the generated 61-point
  oval loop with its five quarter checkpoints, the point-to-segment
  distance and the on-track test. It also covers the boundary correction,
  the nearest-checkpoint query and the forward-only checkpoint advance.
- **PowerUps** (`powerup.dfy`): the power-ups and their manager. This
  covers the timed spawning at a random point of the track and the aging.
  It also covers collection of the first power-up in reach, and dropping
  the collected ones.
- **HighScores** (`highscores.dfy`): the high-score ledger of the UI. This
  covers reading the stored list with its fallback to an empty list, and
  saving a race into the top ten by score.
- **Race** (`game.dfy`): the game controller. It covers starting a race and
  the frame update, which runs these steps in a fixed order:
  1. the race clock;
  2. every car's own update;
  3. the boundary checks;
  4. every pair of cars checked for contact, in loop order;
  5. the pickup and the held power-up's countdown;
  6. the power-up field;
  7. checkpoint and lap;
  8. score and camera.

  It also covers the player's ranking, the Escape and Space keys, and the
  finish with its time and place bonuses.

Source code that works in place is modelled in place, on the same objects.
This covers `Car`, `Track`, `PowerUp`, `PowerUpManager` and the `Game`
loops over the car objects. Each such method is proved against a function
on values, and the properties are lemmas about those functions:

- `Car.update` is proved equal to `Step`.
- `PowerUpManager.update` is proved equal to `ManagerStep`.
- The car-to-car loops of `Game.update` are proved equal to `OuterPass`.
- The whole frame is proved equal to `Tick`.

The browser's `Math` functions are a parameter `m: MathLib`. Where a
property needs more than their types, `Lawful(m)` or `ExactSqrt(m)` states
what is assumed about `Math.sqrt`. The same holds for the other inputs:

- The frame time, the race clock and the held keys are parameters.
- Each `Math.random()` draw is a parameter in [0, 1).
- The date stamp is a parameter.
- The browser storage is a value.

## Model

| member | source | states |
|---|---|---|
| Utils.Distance | js/utils.js:5-7 | with a lawful square root the distance is non-negative, and zero exactly when the two points coincide |
| Utils.DistanceSquared | js/utils.js:5-7 | with an exact square root, the square of the distance is the squared Euclidean distance |
| Utils.DistanceBelow | js/utils.js:5-7 | a distance is below a positive bound exactly when the squared distance is below the bound's square |
| Utils.DistanceSymmetric | js/utils.js:5-7 | the distance from a to b equals the distance from b to a |
| Utils.DistanceToSelf | js/utils.js:5-7 | a point is at distance 0 from itself |
| Utils.RaiseAngle | js/utils.js:11 | the first loop ends non-negative, below 2π when it ran, denoting the same direction, and is the identity on non-negative angles |
| Utils.LowerAngle | js/utils.js:12 | the second loop ends in [0, 2π), denoting the same direction, and is the identity below 2π |
| Utils.NormalizeAngle | js/utils.js:10-14 | the result lies in [0, 2π), differs from the input by whole turns, and is the input itself when already in range |
| Utils.Lerp | js/utils.js:17-19 | t = 0 gives start, t = 1 gives end, and t in [0, 1] gives a value between the two |
| Utils.Clamp | js/utils.js:22-24 | the result is at least min, at most max when min ≤ max, the value itself when in range, min below the range and max above it |
| Utils.PointInRect | js/utils.js:27-29 | inside exactly when both coordinates lie within the rectangle, bounds included |
| Utils.RectHoldsCorners | js/utils.js:27-29 | all four corners of a rectangle of non-negative size are inside it |
| Utils.RandomReal | js/utils.js:32-34 | a draw in [0, 1) gives a value in [min, max); draw 0 gives min |
| Utils.RandomInt | js/utils.js:37-39 | a draw in [0, 1) gives an integer in [min, max], both inclusive; draw 0 gives min |
| Utils.JsRemainder | js/utils.js:44 | JavaScript's `%` truncates toward zero; for a non-negative dividend it agrees with the floored remainder and lies in [0, b) |
| Utils.NatToString | js/utils.js:45 | the decimal numeral is a non-empty string of digits, one digit long exactly below 10 |
| Utils.DecimalRoundTrip | js/utils.js:45 | reading back the decimal numeral of n gives n |
| Utils.IntToString | js/utils.js:45 | a non-negative integer prints as its numeral; a negative one prints as '-' followed by the numeral of its magnitude |
| Utils.PadStart2 | js/utils.js:45 | strings shorter than two are left-padded with '0' to length two; longer ones are unchanged |
| Utils.TwoDigits | js/utils.js:45 | a number below 100, printed and padded, is exactly two digits that read back as the number |
| Utils.TimeFields | js/utils.js:42-46 | for a non-negative time, minutes ≥ 0, seconds in 0..59, and minutes·60 + seconds is the whole number of seconds |
| Utils.FormatTimeShape | js/utils.js:42-46 | formatTime gives the minutes in decimal, ':' and exactly two digits; reading both fields back gives the minutes and the leftover seconds 0..59 |
| Utils.FormatTime | js/utils.js:42-46 | no contract of its own: FormatTimeShape and TimeFields state its shape and fields |
| Cars.BaseMaxSpeed | js/car.js:9 | the speed cap is positive: 200 for the player, 180 for an AI car |
| Cars.TickTimers | js/car.js:36-47 | a held power-up's timer drops by dt and the power-up ends once the timer reaches 0; a positive cooldown drops by dt; nothing else changes |
| Cars.PlayerControl | js/car.js:79-103 | speed changes by +150·dt when accelerating and −100·dt when braking; the heading turns by PlayerTurn and is normalised into [0, 2π); nothing else changes |
| Cars.PlayerTurn | js/car.js:90-99 | no turn at speeds of 10 or less or when left and right are both held or both released; otherwise a right turn is positive and a left turn is negative |
| Cars.WrapDown | js/car.js:123 | the result is at most π, above −π when the loop ran, and in the same direction as the input |
| Cars.WrapUp | js/car.js:124 | the result lies in [−π, π] and is in the same direction as the input |
| Cars.AngleDifference | js/car.js:120-124 | the wrapped difference lies in [−π, π], denotes the same direction, and is unchanged when already in range |
| Cars.AiTurn | js/car.js:127-133 | no turn for a difference of 0.1 or less; otherwise exactly 0.04, in the sign of the difference |
| Cars.AiControl | js/car.js:105-149 | with a path: the target bearing is atan2 to the waypoint and the heading turns toward it. The car accelerates by 120·dt while farther than 50, otherwise the waypoint index advances mod the path length; nothing else changes. Without a path it only accelerates by 105·dt |
| Cars.Coast | js/car.js:55-76 | the cap is 1.5× base exactly under speed boost, otherwise base; the final speed lies in [0, cap]; only x, y, speed and cap change |
| Cars.Capped | js/car.js:61-65 | no contract of its own: Coast states the cap, 1.5× base exactly under speed boost |
| Cars.Slowed | js/car.js:67-69 | no contract of its own: Coast states that the final speed lies in [0, cap] |
| Cars.Moved | js/car.js:71-76 | the move is followed by a clamp of the speed into [0, cap] |
| Cars.Step | js/car.js:33-77 | a settled car stays settled; the power-up, its timer and the cooldown are those of the timer phase; the cap is boosted exactly when speed boost is active |
| Cars.Car.constructor | js/car.js:4-31 | a new car is at rest, heading 0, with the base cap, no power-up and no cooldown, and settled |
| Cars.Car.Update | js/car.js:33-77 | the car's new state is Step of its old state; it stays settled |
| Cars.Car.RunTimers | js/car.js:36-47 | the new state is TickTimers of the old |
| Cars.Car.Move | js/car.js:55-76 | the new state is Coast of the old |
| Cars.Car.UpdatePlayer | js/car.js:79-103 | the new state is PlayerControl of the old |
| Cars.Car.UpdateAI | js/car.js:105-149 | the new state is AiControl of the old |
| Cars.Car.ApplyPowerUp | js/car.js:151-154 | the given power-up and duration replace whatever was held; nothing else changes |
| Cars.Corners | js/car.js:156-180 | four corners whose centroid is the car's position |
| Cars.Car.GetCorners | js/car.js:156-180 | the corners of the car's current state |
| Cars.Xs | js/car.js:187-195 | the x coordinates of the points, index for index |
| Cars.Ys | js/car.js:187-195 | the y coordinates of the points, index for index |
| Cars.MinOfIsLeast | js/car.js:187-194 | `Math.min(...)` of a non-empty list is one of its elements and no greater than any |
| Cars.MaxOfIsGreatest | js/car.js:187-195 | `Math.max(...)` of a non-empty list is one of its elements and no less than any |
| Cars.BoxBounds | js/car.js:187-195 | the bounding box holds every corner, and each of its four sides touches a corner |
| Cars.BoxesOverlap | js/car.js:197 | no contract of its own: CheckCollision and CollisionSymmetric state the inclusive overlap and its symmetry |
| Cars.Car.CheckCollision | js/car.js:182-198 | true exactly when the bounding boxes of the two cars' corners overlap, edges included |
| Cars.CollisionSymmetric | js/car.js:182-198 | a.checkCollision(b) equals b.checkCollision(a) |
| Cars.PushedApart | js/car.js:205-221 | for centres apart, the push halves both speeds and moves the cars by ±(5·cos θ, 5·sin θ) along the bearing θ from a to b |
| Cars.Bounce | js/car.js:200-225 | no contract of its own: BounceResponse and BounceApart state the response |
| Cars.BounceResponse | js/car.js:200-225 | nothing changes while either car cools down; otherwise both cooldowns become 0.5. Centres apart: both speeds halve. Same centre: speeds and places are kept. The cars move by equal and opposite amounts, and no other field changes |
| Cars.BounceApart | js/car.js:200-225 | with a lawful square root, cars at different centres and no cooldown are slowed to half and pushed by opposite displacements |
| Cars.Car.HandleCollision | js/car.js:200-225 | the two cars' new states are Bounce of their old states |
| Tracks.OvalAngle | js/track.js:24 | point 0 is at parameter 0 and point 60 at a full turn |
| Tracks.MarksAreQuarters | js/track.js:23-33 | after n points the generation loop has pushed ⌈n/15⌉ checkpoints, the k-th made at point 15k |
| Tracks.ClosedLoop | js/track.js:23-33 | when cos and sin repeat over one turn, the last path point equals the first, and the fifth checkpoint sits on the first |
| Tracks.GenerateTrack | js/track.js:12-42 | the path is the 61 oval points, the checkpoints are the five quarter marks, and the start is point 0 facing point 1 |
| Tracks.Track.constructor | js/track.js:4-10 | the new track is the generated one |
| Tracks.ProjectionParam | js/track.js:61-72 | a zero-length segment gives parameter −1 |
| Tracks.SegmentFoot | js/track.js:74-86 | the measured point lies in the segment's bounding box. Parameter below 0 gives the first end and above 1 the second end. Parameter in [0, 1] gives the interpolated point, first end plus parameter times the segment. A zero-length segment gives its single point |
| Tracks.ProjectOnSegment | js/track.js:60-90 | a point on a segment, at any parameter t in [0, 1], is its own measured point |
| Tracks.DistanceToSegment | js/track.js:60-90 | the distance from p to its measured point on the segment; non-negative with a lawful square root; the distance to the end point for a zero-length segment |
| Tracks.OnSegmentDistance | js/track.js:60-90 | with a lawful square root, every point of a segment is at distance 0 from it |
| Tracks.FirstMin | js/track.js:46-56 | a strict running minimum ends on the first least element |
| Tracks.SegmentDistances | js/track.js:48-54 | the distances to every segment of the closed loop, the closing one included |
| Tracks.OnTrack | js/track.js:45-57 | no contract of its own: IsOnTrack's loop is proved to compute it |
| Tracks.Track.IsOnTrack | js/track.js:45-57 | true exactly when some segment of the loop is strictly nearer than half the width (100); never on an empty path |
| Tracks.Track.CheckBoundaryCollision | js/track.js:93-103 | true exactly when some corner of the car is off the track |
| Tracks.NearestPoint | js/track.js:112-141 | the car's own position on an empty path. Otherwise the measured point on segment k, where segment k is at the least distance of all segments and strictly nearer than every segment before it (the strict `<` keeps the first). The returned point is at exactly that least distance from the car |
| Tracks.Track.FindNearestPoint | js/track.js:112-141 | the loop ends on NearestPoint: the measured point on the first nearest segment, or the car's position on an empty path |
| Tracks.Nudge | js/track.js:143-151 | only x and y change, and a car sitting on the target is not moved |
| Tracks.NudgeLength | js/track.js:143-151 | with an exact square root, a car off the target moves exactly 5 units, and ends at distance abs(d − 5) from the target, d being its old distance: the move is straight toward the target |
| Tracks.Track.PushToward | js/track.js:143-151 | the car's new state is Nudge of its old state |
| Tracks.BoundaryResponse | js/track.js:106-157 | the speed becomes 0.3 of the old speed; only x, y and speed change; a car already on the nearest point stays put |
| Tracks.BoundaryPushLength | js/track.js:143-151 | with an exact square root, a car that is not on the nearest point moves exactly 5 units straight toward it (it ends abs(d − 5) from it) |
| Tracks.Track.HandleBoundaryCollision | js/track.js:106-157 | reports a boundary collision exactly when the car was off the track; the car then gets BoundaryResponse (slowed to 0.3, pushed 5 units toward the nearest point by BoundaryPushLength), otherwise it is unchanged |
| Tracks.NearestCheckpoint | js/track.js:185-200 | the first of the closest checkpoints; 0 when there are none |
| Tracks.CheckpointDistances | js/track.js:189-196 | the distance from the car to each checkpoint |
| Tracks.Ahead | js/track.js:165-176 | no contract of its own: Advance states that it decides whether the checkpoint changes |
| Tracks.Track.GetCurrentCheckpoint | js/track.js:185-200 | the loop ends on NearestCheckpoint |
| Tracks.Advance | js/track.js:160-182 | the result is the last checkpoint or the nearest one. It changes exactly when the nearest differs from the last and the car is strictly ahead of it, toward the next |
| Tracks.AdvanceIdempotent | js/track.js:160-182 | asking again for an unmoved car with the answer just given changes nothing |
| Tracks.Track.CheckCheckpoint | js/track.js:160-182 | the method returns Advance |
| PowerUps.RandomType | js/powerup.js:27-30 | a draw below 0.25 gives speed boost |
| PowerUps.RandomTypeQuarters | js/powerup.js:27-30 | each of the four types owns a quarter of the draws, in list order |
| PowerUps.InReach | js/powerup.js:36-41 | no contract of its own: InReachDisc states it as the disc of radius 25 |
| PowerUps.PowerUp.CheckCollection | js/powerup.js:36-41 | no contract of its own: it is InReach of the power-up's state and the car's |
| PowerUps.PowerUp.constructor | js/powerup.js:4-25 | the new power-up has the given type, or a randomly drawn one when none is given; it is uncollected, with animation time 0 |
| PowerUps.Aged | js/powerup.js:32-34 | the animation time advances by the frame time in seconds and nothing else changes |
| PowerUps.PowerUp.Update | js/powerup.js:32-34 | the new state is Aged of the old |
| PowerUps.InReachDisc | js/powerup.js:36-41 | with an exact square root, a power-up can be collected exactly when it is uncollected and the car's centre is strictly inside the disc of radius 25 around it |
| PowerUps.PowerUp.Collect | js/powerup.js:43-45 | marks the power-up collected and changes nothing else |
| PowerUps.PowerUpManager.constructor | js/powerup.js:134-140 | no power-ups, spawn timer 0 |
| PowerUps.SpawnIndex | js/powerup.js:167 | the spawn segment index lies within the path |
| PowerUps.SpawnBase | js/powerup.js:171-174 | the point along the spawn segment lies in that segment's bounding box |
| PowerUps.SpawnOffset | js/powerup.js:184 | the sideways offset lies within a quarter of the track width either way |
| PowerUps.SpawnItem | js/powerup.js:163-192 | nothing exactly when the path is empty; otherwise an uncollected power-up of the drawn type with animation time 0, placed exactly when the segment's length is not 0 |
| PowerUps.SpawnNearCentreLine | js/powerup.js:176-189 | with an exact square root, a placed power-up lies exactly the offset from its point on the segment, so at most 50 from the centre line |
| PowerUps.PowerUpManager.SpawnPowerUp | js/powerup.js:163-192 | the list gains SpawnItem's power-up at the end (none without a path); the timer is unchanged |
| PowerUps.Uncollected | js/powerup.js:160 | the filter never grows the list |
| PowerUps.UncollectedMembers | js/powerup.js:160 | the filter keeps exactly the uncollected entries; a list with nothing collected is kept whole, and one with everything collected becomes empty |
| PowerUps.UncollectedAppend | js/powerup.js:160 | filtering a concatenation concatenates the filtered parts, so the kept entries stay in their order with their multiplicity |
| PowerUps.KeepUncollected | js/powerup.js:160 | the filter on objects keeps only objects of the list |
| PowerUps.KeepUncollectedValues | js/powerup.js:160 | filtering the objects filters their states |
| PowerUps.KeepUncollectedDistinct | js/powerup.js:160 | filtering keeps the objects distinct |
| PowerUps.AgedAll | js/powerup.js:155-157 | every state aged by one frame, index for index |
| PowerUps.PowerUpManager.AgeAll | js/powerup.js:155-157 | the loop ages every power-up: the states become AgedAll of the old |
| PowerUps.Spawned | js/powerup.js:146-152 | the timer advances; at or past 5 s with fewer than 5 on the track, the spawn is appended and the timer resets to 0; otherwise the list is kept |
| PowerUps.PowerUpManager.SpawnStep | js/powerup.js:146-152 | the new state is Spawned of the old |
| PowerUps.ManagerStep | js/powerup.js:142-161 | the field stays within 5 power-ups and grows by at most one, and every survivor is uncollected. The new list is the old uncollected power-ups, aged and in their order, followed on a spawn by the aged new one. The timer is reset on a spawn and advanced otherwise |
| PowerUps.AgeThenFilter | js/powerup.js:146-160 | aging and filtering a list with uncollected entries appended gives the filtered old entries in order, followed by the new ones aged |
| PowerUps.PowerUpManager.Update | js/powerup.js:142-161 | the new state is ManagerStep of the old, so the kept power-ups keep their order; the objects stay distinct |
| PowerUps.FirstInReachFrom | js/powerup.js:195-201 | the first index from k whose power-up is in reach of the car, or none when no later one is |
| PowerUps.FirstInReach | js/powerup.js:194-202 | the first power-up in reach, or none exactly when none is in reach |
| PowerUps.AfterCollection | js/powerup.js:194-202 | the first power-up in reach, if any, is marked collected and nothing else changes |
| PowerUps.CollectOnce | js/powerup.js:194-202 | a collected power-up is not collected again: the next collection at the same place takes a later one or none |
| PowerUps.PowerUpManager.CheckCollection | js/powerup.js:194-202 | returns the type of the first power-up in reach, or none exactly when none is in reach; the states become AfterCollection of the old |
| PowerUps.PowerUpManager.Clear | js/powerup.js:210-213 | no power-ups, spawn timer 0 |
| HighScores.GetHighScores | js/ui.js:184-193 | a missing or unparsable stored value reads as the empty list; a parsed list reads as itself |
| HighScores.SortedCount | js/ui.js:208 | in a list sorted by score, the entries scoring at least v form a prefix |
| HighScores.InsertStableFacts | js/ui.js:208 | inserting into a sorted list keeps it sorted and adds exactly the new entry, right after every entry scoring at least as much |
| HighScores.SortFacts | js/ui.js:208 | the sort by `b.score - a.score` orders by non-increasing score and is a permutation |
| HighScores.SortByScore | js/ui.js:208 | no contract of its own: SortFacts and SortKeepsCount state its order and permutation |
| HighScores.SortKeepsCount | js/ui.js:208 | sorting keeps how many entries score at least v |
| HighScores.TopFacts | js/ui.js:211 | the top ten of a sorted list are sorted and part of the list, and nothing cut off scores more than anything kept |
| HighScores.NewEntryPlace | js/ui.js:195-211 | the pushed entry is kept exactly when fewer than ten old entries score at least as much; otherwise the saved list is the old top ten |
| HighScores.LedgerFacts | js/ui.js:195-215 | the saved list is sorted, has min(old + 1, 10) entries, is drawn from the old list plus the new entry, and drops nothing that outscores an entry kept. It holds the new entry exactly when it places |
| HighScores.Ledger | js/ui.js:195-211 | no contract of its own: LedgerFacts states what the saved list is |
| HighScores.SaveHighScore | js/ui.js:195-215 | the stored list is Ledger: read, push, sort, keep ten |
| Race.DriveAI | js/game.js:173-175 | each AI car takes one Step with no keys and stays settled |
| Race.DriveAIs | js/game.js:173-175 | the loop over the AI car objects gives DriveAI of their old states |
| Race.DriveCars | js/game.js:169-175 | the player's car takes Step with the held keys, then the AI cars take DriveAI |
| Race.KeptOnTrack | js/game.js:178 | a car off the track gets BoundaryResponse, otherwise it is unchanged. The cap is kept, the speed never rises, and a settled car stays settled |
| Race.Bounds | js/game.js:179-181 | every AI car gets KeptOnTrack |
| Race.BoundAIs | js/game.js:179-181 | the loop over the AI car objects gives Bounds of their old states |
| Race.KeepCarsOnTrack | js/game.js:177-181 | the player's car gets KeptOnTrack, then the AI cars get Bounds |
| Race.Collide | js/game.js:184-195 | one contact check keeps the number of cars |
| Race.CollideFacts | js/game.js:184-195 | a contact check touches only its two cars, changes nothing while either cools down, and keeps every car settled |
| Race.Response | js/game.js:184-195 | no contract of its own: the contact checks use it, and CoolingCarFrozen and AtMostOneResponse state its effect over a frame |
| Race.RunChecks | js/game.js:184-195 | running a list of checks keeps the number of cars |
| Race.RunChecksSettled | js/game.js:184-195 | the contact checks keep every car settled |
| Race.InnerChecks | js/game.js:190-194 | the inner loop's checks all name two cars of the list, the first before the second |
| Race.ChecksFrom | js/game.js:184-195 | the outer loop's checks all name two cars of the list, the first before the second |
| Race.TickChecks | js/game.js:184-195 | all checks of one frame name two cars of the list, the first before the second |
| Race.InnerChecked | js/game.js:190-194 | the inner loop for AI car i checks exactly the pairs (i + 1, b) with b beyond j, plus what follows |
| Race.CheckedFrom | js/game.js:184-195 | the loops from AI car i check the player against each AI car from i on, and each pair of those AI cars |
| Race.EveryPairChecked | js/game.js:184-195 | one frame checks every pair of cars exactly when both are in the race: the player (0) and the AI cars (1..n) |
| Race.CoolingCarFrozen | js/game.js:184-195 | a car that is cooling down is left alone by the checks and takes part in no response |
| Race.AtMostOneResponse | js/game.js:184-195 | within one frame each car takes part in at most one effective collision response |
| Race.CollidePlayer | js/game.js:185-188 | the player-against-AI check keeps the number of AI cars |
| Race.CollidePlayerAt | js/game.js:185-188 | it is the check of cars 0 and i + 1 of the list with the player first |
| Race.CollideAI | js/game.js:191-193 | the AI-against-AI check keeps the number of AI cars |
| Race.CollideAIAt | js/game.js:191-193 | it is the check of cars i + 1 and j + 1 of the list with the player first |
| Race.InnerPass | js/game.js:190-194 | the inner loop keeps the number of AI cars |
| Race.OuterPass | js/game.js:184-195 | the outer loop keeps the number of AI cars |
| Race.InnerPassChecks | js/game.js:190-194 | the inner loop makes exactly the checks of InnerChecks, in order |
| Race.PassChecks | js/game.js:184-195 | the two loops make exactly the checks of ChecksFrom, in order |
| Race.ContactPlayer | js/game.js:185-188 | on the objects: the new states are CollidePlayer of the old |
| Race.ContactAI | js/game.js:191-193 | on the objects: the new states are CollideAI of the old |
| Race.ContactLater | js/game.js:190-194 | on the objects: the inner loop gives InnerPass |
| Race.ContactRound | js/game.js:184-195 | one turn of the outer loop on the objects advances OuterPass by one AI car |
| Race.ResolveCollisions | js/game.js:184-195 | on the objects: the loops give OuterPass of the old states |
| Race.CarPhase | js/game.js:169-195 | the car phases keep the number of AI cars and keep every car settled |
| Race.CarPhaseChecks | js/game.js:169-195 | the car phases are the frame's contact checks, run after each car's own update and boundary check |
| Race.RunCars | js/game.js:169-195 | on the objects: update, boundary and contact loops give CarPhase, and every car stays settled |
| Race.PickedKind | js/game.js:198 | the collected type is none exactly when nothing is in reach; otherwise it is the first in-reach power-up's type |
| Race.AfterPickup | js/game.js:199-205 | a pickup holds the type for 5 s and scores 100; no pickup changes nothing |
| Race.Held | js/game.js:203 | a pickup is applied to the player's car for 5 s |
| Race.Pickup | js/game.js:197-205 | the pickup step never lowers the score and keeps the AI cars and the number of power-ups. Only the score and the held power-up change in the race fields, and a settled player's car stays settled |
| Race.HeldCountdown | js/game.js:207-213 | a positive timer drops by dt, and the held type is let go once it reaches 0; otherwise nothing changes |
| Race.Timers | js/game.js:207-216 | the cars are unchanged and only the held power-up fields change in the race fields; the field stays within 5 power-ups |
| Race.CarsAhead | js/game.js:272-282 | at most the number of AI cars are ahead |
| Race.Rank | js/game.js:264-285 | the position lies between 1 and the number of cars |
| Race.AheadStep | js/game.js:272-282 | the count over one more AI car adds that car exactly when its progress exceeds the player's |
| Race.AheadIgnoresLap | js/game.js:267-277 | the count of cars ahead does not depend on the lap count |
| Race.RankIgnoresLap | js/game.js:264-285 | every car's progress uses the player's lap count, so the lap count never changes the ranking |
| Race.CarProgress | js/game.js:266-277 | one car's progress, as getPlayerPosition computes it |
| Race.Progress | js/game.js:266-277 | no contract of its own: AheadIgnoresLap and RankIgnoresLap state that its lap term never changes the ranking |
| Race.GetPlayerPosition | js/game.js:264-285 | the counting loop ends on Rank |
| Race.SpeedPoints | js/game.js:256 | the speed points are never negative |
| Race.ScoreTick | js/game.js:254-262 | every call adds at least 10 and changes only the score |
| Race.Game.UpdateScore | js/game.js:254-262 | the race fields become ScoreTick of the old |
| Race.TimeBonus | js/game.js:295 | the time bonus is never negative and at most 10000 |
| Race.FinalScore | js/game.js:294-297 | finishing in any place adds at least 500 |
| Race.Finished | js/game.js:287-300 | the race is over with the final score; only state, score and the stored ledger change |
| Race.Game.FinishRace | js/game.js:287-304 | the race fields become Finished, with the player's rank at the finish and the ledger saved |
| Race.LapStep | js/game.js:218-239 | the checkpoint becomes Advance. The lap stays in 1..3 and moves on by at most one, into checkpoint 0, with 500 points. The race ends only at checkpoint 0 on the last lap. Nothing changes when the checkpoint does not |
| Race.Game.CheckLap | js/game.js:218-239 | the race fields become LapStep of the old |
| Race.Standing | js/game.js:218-246 | the lap stays in range and moves by at most one, the score rises by at least 10, the race stays on or ends, and the camera follows the player's car |
| Race.Driven | js/game.js:164-195 | the cars come out settled and the power-up field is untouched |
| Race.Tick | js/game.js:161-252 | a frame keeps the number of AI cars |
| Race.TickFacts | js/game.js:161-252 | a frame keeps every car settled and the field within 5. It changes nothing unless the race is on; otherwise the race stays on or ends, the score rises by at least 10, and the lap moves on by at most one, into checkpoint 0 |
| Race.GameOverIsFinal | js/game.js:161-162 | once a frame ends the race, every later frame changes nothing |
| Race.Game.Update | js/game.js:161-252 | nothing changes unless the race is on; otherwise the new world is Tick of the old |
| Race.Game.Play | js/game.js:164-246 | a running frame gives Tick and keeps the race set up with the lap in range |
| Race.Game.RaceCars | js/game.js:164-195 | the world becomes Driven of the old: race clock, then car phases |
| Race.Game.Collect | js/game.js:197-205 | the world becomes Pickup of the old |
| Race.Game.AdvanceTimers | js/game.js:207-216 | the world becomes Timers of the old |
| Race.Game.CountDownHeld | js/game.js:207-213 | the race fields become HeldCountdown of the old |
| Race.Game.Standings | js/game.js:218-246 | the race fields become Standing of the old |
| Race.SlowAI | js/game.js:151-153 | every AI car gets slow motion for 3 s, index for index |
| Race.SlowAll | js/game.js:151-153 | the loop over the AI car objects gives SlowAI |
| Race.UseEffect | js/game.js:145-155 | nitro raises the player's speed by 100 up to the cap; slow motion slows every AI car; other types do nothing; every car stays settled |
| Race.ApplyEffect | js/game.js:145-155 | on the objects: the new states are UseEffect of the old |
| Race.UseHeld | js/game.js:143-159 | only with a held power-up whose timer is positive, its effect is applied and nothing is held afterwards; otherwise nothing changes |
| Race.Game.UsePowerUp | js/game.js:143-159 | the world becomes UseHeld of the old |
| Race.Game.PressSpace | js/game.js:74-77 | the held power-up is used only while the race is on |
| Race.Game.PressEscape | js/game.js:66-72 | Escape pauses a running race and resumes a paused one; any other state is unchanged |
| Race.StartIndex | js/game.js:104 | each AI car's starting path index lies within the path |
| Race.GridCar | js/game.js:96-105 | an AI car on the grid is settled and starts at a valid path index |
| Race.Grid | js/game.js:94-106 | three AI cars, the i-th being GridCar i |
| Race.StartGrid | js/game.js:94-106 | the loop creates three fresh AI cars whose states are Grid, none of them the player's |
| Race.NewCars | js/game.js:89-106 | the player's car sits on the start facing the start direction, at rest, and the AI cars are the grid; all are fresh and settled |
| Race.Game.constructor | js/game.js:13-54 | a new game is in the menu, with score 0, lap 1 and no track |
| Race.Game.Start | js/game.js:85-132 | a fresh generated track; the player's car and the grid as in NewCars; an empty field; the race is on at lap 1 with everything reset |

## Left out

- Rendering, the HUD and screens of the UI, audio, the camera's drawing, canvas resizing and the game loop's `requestAnimationFrame` scheduling are not modelled: they are drawing and I/O.
- The countdown's `setTimeout` callbacks are not modelled: they are timers of the browser.
- `js/main.js` and `js/audio.js` are not part of this model.
- `Date.now()` is not modelled. `Game.update` takes the race time in seconds directly, and `finishRace` takes the date stamp for the ledger.
- Keyboard events are not modelled as events: the held keys are a set, and the Escape and Space handlers are methods.
- Every `Math.random()` draw is a parameter in [0, 1).
- `Math.sqrt`, `Math.sin`, `Math.cos`, `Math.atan2` and `Math.pow` are parameters. Their values are constrained only where a lemma says so, by `Lawful` or `ExactSqrt`.
- Floating point is not modelled: numbers are exact reals. Rounding, infinities and NaN are absent, with one exception: a power-up spawned on a zero-length segment is marked unplaced and can never be collected, which is what its NaN coordinates mean in the source.
- The `Infinity` start of the running minima is a `measured` flag.
- `localStorage` is a `Storage` value. It is missing, unparsable, or a parsed list of entries, so JSON text is not modelled. `SaveHighScore` returns the list it stores.
- `Array.prototype.sort` is modelled as a stable insertion sort by non-increasing score. Every stable sort with that comparator gives the same list.
- Race.Game: the `Game` object keeps the race fields as one `RaceVars` value, and its cars and power-up field as values (`CarState`, `Field`). The same steps on `Car` objects are the methods RunCars, ApplyEffect and GetPlayerPosition. Aliasing between the game's cars is therefore not modelled inside `Game` itself; `Roles` states it for the object methods.
- Tracks.Track: the track's fields are constants, since nothing changes them after `generateTrack`. `width` and `boundaryWidth` are module constants.
- The car-to-car loop lemmas are stated for any contact function. They are then used with `Response(m)`, the source's check followed by `handleCollision`.
- Car colours, the power-up colour and name tables and the animation pulse are not modelled: they are used only for drawing.
- `Car.update` takes the track's path rather than the `Track` object, because the track module depends on the car module. A missing track is the empty path.
- Race.Progress: the progress measure is kept as written. It uses the player's lap count for every car, so laps never affect the ranking (RankIgnoresLap).
