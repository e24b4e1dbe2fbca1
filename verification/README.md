# Dodge Master: the game-rule engine in Dafny

Dodge Master is a camera-controlled dodge game. Each camera frame, the
player's head is located in the picture. Hazards ("game objects") spawn at
the right edge of the frame in one of three lanes and move left. They are
pruned once they leave the screen, and each dodged hazard scores 10 points.
A hazard that touches the head ends the game.

This project models the rules of that game as written in
`dodge_master_game.py`:

- `wrappers.dfy`: module `Wrappers`, an `Option` type. `None` is "no head found".
- `difficulty.dfy`: module `Difficulty`. It holds three formulas that depend
  only on the score:
  - the spawn interval, `max(0.5, 1.5 - score/100)`;
  - the level, `1 + score // 100`;
  - the speed multiplier of new hazards, `1 + score/50`.
- `hazards.dfy`: module `Hazards`. It holds:
  - the `GameObject` record;
  - the object that `spawn_object` creates;
  - the move-and-prune pass of `update_game`, as specification functions
    (`Survivors`, `Removed`, `KeptIndices`);
  - the collision test `check_collision` and the "any object hit" test of
    `transform`.
- `session.dfy`: module `Session`. It models the session state: the
  `game_active` and `game_over` flags, `score`, `high_score` and
  `difficulty_level`. It also holds the Start, Pause and Reset button
  handlers, the score update of a pass (`AfterDodges`) and the effect of a
  collision (`Hit`).
- `game.dfy`: module `Game`. Its class `DodgeGameProcessor` owns the state
  that changes each tick:
  - the object list, as `seq<GameObject>`;
  - the spawn timer and spawn interval;
  - the last detected head;
  - the frame counter;
  - the session state.

  Its methods `SpawnObject`, `UpdateGame` and `Transform`, and the button
  methods, change that state in place. Each one is proved against the
  functions above. The loop of `update_game` is the method `MoveAndPrune`.
  It edits the live list element by element, as the source does, and is
  proved equal to `Survivors`.

The class invariant `Valid()` holds in every reachable state. It says:

- the score and high score are multiples of 10;
- the level is at least 1;
- a finished game has its score committed to the high score;
- the spawn interval lies in [0.5, 1.5];
- every listed object has size 50 and a speed of at least 3, so it moves left
  on every active tick.

Positions, speeds and times are exact `real`s. The clock, the random choice of
lane and object type, and the head detector's answer are parameters of the
tick.

The model keeps these behaviours of the code as written:

- The spawn test is a strict `>` on the elapsed time, not `>=`.
- Start is allowed straight from a finished game. It does not clear the
  object list.
- Reset does not clear the object list either. Objects left over from a
  previous game freeze while the game is stopped and resume moving when it is
  started again.
- Neither Start nor Reset resets `difficulty_level`. It is recomputed at the
  next active tick.
- The points-only-while-not-over guard of `update_game` can never fail,
  because `transform` returns early once the game is over. It is modelled all
  the same: `MoveAndPrune` and `AfterDodges` take the flag.
- An object is removed on the first move after which it has covered strictly
  more than `x + size`, that is after `floor((x + size) / speed) + 1` moves,
  because the off-screen test is a strict `<`. When `x + size` is an exact
  multiple of the speed this is one move later than
  `ceil((x + size) / speed)`: with width 640, size 50 and speed 3 the object
  is still listed at x = -50 after move 230 and leaves on move 231.

## Model

| member | source | states |
|---|---|---|
| Difficulty.SpawnInterval | dodge_master_game.py:160 | the interval is `max(0.5, 1.5 - score/100)`: at least both arguments and equal to one of them, hence always within [0.5, 1.5] |
| Difficulty.SpawnIntervalNonIncreasing | dodge_master_game.py:160 | a higher score never gives a longer spawn interval |
| Difficulty.SpawnIntervalFloor | dodge_master_game.py:160 | from score 100 on the interval is exactly 0.5 s |
| Difficulty.Level | dodge_master_game.py:178 | the level is at least 1 and is the unique `l` with `100*(l-1) <= score < 100*l`, i.e. `1 + score // 100` |
| Difficulty.SpeedMultiplier | dodge_master_game.py:137 | the multiplier is at least 1 and exceeds 1 by exactly score/50 |
| Hazards.LaneY | dodge_master_game.py:128-134 | each lane height `height//4`, `height//2` or `3*height//4` lies within the frame: between 0 and the height, and strictly below it for a non-empty frame |
| Hazards.NewObject | dodge_master_game.py:125-145 | a spawned object starts at x = frame width, in one of the lanes height//4, height//2, 3*height//4, with speed 3*(1 + score/50) (at least 3), the chosen type and size 50 |
| Hazards.EveryLaneReachable | dodge_master_game.py:128-134 | each of the three lane heights is produced by some lane choice |
| Hazards.Moved | dodge_master_game.py:169 | one move lowers x by exactly the object's speed, so a positive speed moves it left, and changes no other field |
| Hazards.OffScreen | dodge_master_game.py:172 | the removal test `x < -size` holds exactly when the object's right edge `x + size` has passed the left border of the frame |
| Hazards.Survivors | dodge_master_game.py:168-173 | the number of objects kept plus the number removed is the length of the old list |
| Hazards.Removed | dodge_master_game.py:172-175 | a pass removes at most as many objects as the list holds; with `Survivors` (kept plus removed is the old length) and `KeptIndicesExact` it is the number of positions whose moved object is off screen |
| Hazards.SurvivorsAreKeptInOrder | dodge_master_game.py:168-173 | after the pass the list holds exactly the old objects still on screen after their move (`x - speed >= -size`), each moved left by its own speed, in their old order |
| Hazards.KeptIndicesSelect | dodge_master_game.py:168-173 | the k-th object kept by the pass is the old object at the k-th kept index, moved left by its speed |
| Hazards.KeptIndicesIncreasing | dodge_master_game.py:168-173 | the kept indices are valid positions of the old list and strictly increasing, so the pass keeps the old order |
| Hazards.KeptIndicesExact | dodge_master_game.py:168-173 | an old position is kept exactly when its object, once moved, is not off screen |
| Hazards.Advanced | dodge_master_game.py:169 | after n ticks an object's x has dropped by exactly n times its speed and nothing else has changed |
| Hazards.OffScreenStays | dodge_master_game.py:169-172 | an object moving left that is off screen after k ticks is off screen after any later tick, so a pruned object would never come back |
| Hazards.OffScreenIff | dodge_master_game.py:169-172 | after t moves an object is off screen exactly when t times its speed exceeds `x + size` |
| Hazards.FirstOffScreenTick | dodge_master_game.py:169-173 | an object with positive speed is first off screen, and so removed, after `floor((x + size) / speed) + 1` moves (0 if it starts off screen), and after no earlier move |
| Hazards.ExactMultipleLeavesOneMoveLater | dodge_master_game.py:172 | with x = 640, size 50 and speed 3 the object is still listed after 230 moves, at x = -50, and is off screen after 231, because the test is a strict `<` |
| Hazards.LeavesScreen | dodge_master_game.py:169-173 | an object with positive speed is off screen after finitely many ticks |
| Hazards.Collides | dodge_master_game.py:147-150 | an absent head never collides, whatever the object |
| Hazards.CollisionMatchesDistance | dodge_master_game.py:152-153 | for a present head, the squared test is exactly `distance < size + 30` for the non-negative distance, so a distance equal to `size + 30` is a miss |
| Hazards.AnyHit | dodge_master_game.py:225-229 | without a head, no object of the list is hit |
| Hazards.AnyHitIff | dodge_master_game.py:225-229 | the list is hit exactly when some object in it collides with the head |
| Session.InitialIsConsistent | dodge_master_game.py:57-67 | the initial session (inactive, not over, score 0, high score 0, level 1) satisfies the session invariant |
| Session.StartGame | dodge_master_game.py:279-283 | Start sets the game active and not over and zeroes the score, whatever the previous state; it keeps the high score and level and preserves the invariant |
| Session.PauseGame | dodge_master_game.py:286-288 | Pause clears the active flag and changes nothing else |
| Session.ResetGame | dodge_master_game.py:291-295 | Reset clears both flags and zeroes the score; it keeps the high score and level and preserves the invariant |
| Session.PauseIdempotent | dodge_master_game.py:286-288 | pressing Pause twice is the same as pressing it once |
| Session.StartAfterResetIsStart | dodge_master_game.py:279-295 | Reset followed by Start is the same as Start alone |
| Session.AfterDodges | dodge_master_game.py:172-178 | the score rises by exactly 10 per removed object when the game is not over and by 0 when it is; the level is then `1 + score // 100`; nothing else changes; the invariant is preserved |
| Session.NoPointsWhenOver | dodge_master_game.py:174-175 | a finished game gains no points from objects leaving the screen |
| Session.Hit | dodge_master_game.py:229-232 | a collision sets game over and makes the high score `max(high score, score)`; nothing else changes |
| Session.HitIdempotent | dodge_master_game.py:228-232 | a second collision in the same tick changes nothing more, so several hits give the same result as one |
| Game.SpawnDue | dodge_master_game.py:160-163 | a spawn is due only after more than 0.5 s and always after more than 1.5 s since the last one; from score 100 on it is due exactly when more than 0.5 s have passed |
| Game.Pool | dodge_master_game.py:162-165 | the list the pass starts from is the old list, unchanged, followed by exactly one more object when a spawn is due: the `NewObject` for the chosen lane and type at the current score; with no spawn due it is the old list |
| Game.MoveAndPrune | dodge_master_game.py:168-176 | the in-place loop leaves exactly `Survivors` of the snapshot and adds 10 per removed object unless the game is over |
| Game.SurvivorsWellFormed | dodge_master_game.py:168-173 | if every object of a list has size 50 and speed at least 3, so does every object the pass keeps |
| Game.ResolveCollisions | dodge_master_game.py:225-232 | the loop over the objects ends with `Hit` of the old session exactly when some object collides with the head, and with the old session otherwise |
| Game.DodgeGameProcessor.constructor | dodge_master_game.py:88-94 | a new processor has no objects, a spawn timer set to the creation time, interval 1.5, no head and frame count 0; it takes over the existing session state unchanged, which may be left over from an earlier game, since the session is created once per browser session and outlives processors |
| Game.DodgeGameProcessor.SpawnObject | dodge_master_game.py:125-145 | appends exactly one `NewObject` at the end, speed scaled by the current score; earlier objects and all other state are unchanged |
| Game.DodgeGameProcessor.UpdateGame | dodge_master_game.py:155-178 | the interval is recomputed from the score. A spawn happens only when `now - lastSpawnTime` strictly exceeds it, and the timer then becomes `now`. The list becomes `Survivors` of the old list plus the spawn, so a new object moves in its first tick. The session becomes `AfterDodges` for `Removed` of that list. The invariant is kept |
| Game.DodgeGameProcessor.Transform | dodge_master_game.py:200-232 | an inactive or finished game leaves the whole state unchanged. Otherwise it counts the frame, records the head and runs `UpdateGame`. It then applies `Hit` exactly when some object that survived the pass collides with the head; with no collision the flags and high score stay as they were |
| Game.DodgeGameProcessor.Start | dodge_master_game.py:279-283 | the session becomes `StartGame` of the old one; the object list, timer, interval, head and frame count are unchanged |
| Game.DodgeGameProcessor.Pause | dodge_master_game.py:286-288 | the session becomes `PauseGame` of the old one; everything else is unchanged |
| Game.DodgeGameProcessor.Reset | dodge_master_game.py:291-295 | the session becomes `ResetGame` of the old one; the object list and the rest are unchanged |

## Left out

- Head detection (`detect_head_position`) is left out. It does HSV conversion, skin-tone thresholding, contour search and image moments in OpenCV. The tick receives its answer as an `Option` of a pixel position.
- Drawing is left out. This covers `draw_object`, the head marker, the lane lines, the score, level and interval text, the game-over banner and the conversion of video frames. It is rendering only; `Transform` takes the frame width and height as numbers.
- The video transport (`webrtc_streamer`, the STUN configuration) and the page layout, styling, sidebar and `st.rerun()` are left out. Of the button code, only the assignments to the session state are modelled.
- `time.time()` and `random.choice` are replaced by parameters: the current time, the lane and the object type.
- The emoji and colour tables are left out. They only affect drawing.
- The `active` attribute of `GameObject` is left out. It is set to true and never read.
- `GameObject` is modelled as a value in a sequence rather than a shared object. During the loop the snapshot `self.game_objects[:]` holds a second reference to every object, but each object is read exactly once, just before its own `x` is updated, and no other object is read through either reference. Value semantics therefore give the same result as the in-place update.
- Video callbacks and button presses are treated as atomic steps, one after another. Their concurrent interleaving on the shared session state is not modelled.
- Speeds, positions and intervals are exact reals. IEEE rounding is not modelled.
- Hazards.Collides: the square root is not modelled. The test compares squared distances, and `CollisionMatchesDistance` shows this equals the source's `distance < size + 30` for every non-negative distance.

