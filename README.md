# Capture-the-flag match rules in Dafny

This project models the match-rules engine of a small two-team
capture-the-flag arena game. The engine is the `"game"` scene of `src/main.js`.
One player on a chosen team takes the other team's flags back to its own base.
Guards patrol each half of the arena. The scene's handlers decide the
following:

- who holds which flag;
- when a team scores;
- who is sent back when the player meets a guard ("home-field advantage");
- when the match is won.

The model has five modules:

- `Arena` (arena.dfy) holds the fixed arena, 800 by 600, and its two teams.
  It also holds the classifier that puts an x coordinate in the red half
  (x < 400) or the blue half, the spawn points, and the bounds clamp.
- `Rules` (rules.dfy) holds the whole match as a value `World`: the player,
  the six flags, the guards, the two counters and the winner. It has one
  function per handler: `Pickup`, `TouchBase`, `WinCheck`, `TouchGuard`,
  `Patrolled`/`PatrolStep`, `MovePlayer` and `ClampPlayer`. Each function's
  contract states the rule's outcome in every branch and what it leaves
  unchanged.
- `Invariant` (invariant.dfy) holds the invariant of every reachable state.
  Possession: the player has a flag exactly when it carries one, the carried
  flag is the other team's, and the player carries at most one. Scoring: the
  player's counter equals the number of destroyed flags, and the other
  counter stays 0. Winner: there is one exactly when the player's team has
  reached 3. Guards: each keeps the team of its starting half. The module
  proves that the start state has the invariant and that every handler keeps
  it. It also proves that a guard's patrol stays within one tick of its range.
- `Play` (play.dfy) models a match as a sequence of events (`Run`), one per
  handler call. It proves the outcome of any match, that the winner is
  final, that guards keep to their half, and three worked scenarios.
- `Game` (match.dfy) holds the class `Match`: the scene's state as mutable
  fields, with one method per handler. Each method updates the fields in
  place, as the source does. Its postcondition says that the new state is
  what the matching `Rules` function gives for the old state, and that the
  invariant still holds.

Contacts arrive as explicit events that name the touched object by index:
flags 0-2 are red and 3-5 are blue, guards are numbered 0-3, and a base is
named by its team. A movement step (speed × frame time) is an integer
parameter. Coordinates are integers.

Two consequences of the code are worth knowing:

- Only the player's own team can ever score. The other counter stays 0, so
  the win check's second branch can only fire for a blue player, and any
  winner is the player's team (`Play.MatchOutcome`).
- The handlers do not look at the winner. Leaving the scene is what stops
  them, and the model follows the code here. `Play.WinnerIsFinal` shows that
  later events could not change the winner anyway.

## Model

| member | source | states |
|---|---|---|
| `Arena.Territory` | src/main.js:342-348 | the red half is exactly x < 400, i.e. left of the midline W/2; x ≥ 400, the midline included, is blue |
| `Arena.InEnemyTerritory` | src/main.js:351-354 | a red object is on enemy ground exactly when x ≥ W/2, a blue one exactly when x < W/2 |
| `Arena.SpawnX` | src/main.js:501 | the spawn x (100 for red, W−100 for blue) is on the team's own half and inside the player bounds |
| `Arena.SpawnY` | src/main.js:501 | the spawn y, H/2, is inside the player bounds |
| `Arena.Clamp` | src/main.js:608-611 | the two ordered checks leave a value inside [lo, hi]; a value already inside is kept, one below becomes lo, one above becomes hi |
| `Rules.NewGuard` | src/main.js:461-476 | a new guard's team is the territory of its startX (the midline rule); it starts at startX on its row, heading right |
| `Rules.InitialFlags` | src/main.js:404-443 | six flags: indices 0-2 red, 3-5 blue, none hidden or destroyed, each on its own team's half |
| `Rules.InitialGuards` | src/main.js:492-496 | four guards, two per half: red ones starting at x = 150, blue ones at x = W−250, on rows 200 and 400 with widths 100 and 80, each at its start heading right |
| `Rules.Initial` | src/main.js:498-511 | at the start both counters are 0, there is no winner, the flags and guards are the set-up ones, the player has the chosen team, stands at its spawn point (inside the bounds) and carries nothing |
| `Rules.Pickup` | src/main.js:514-525 | an enemy flag touched with empty hands becomes hidden and carried (hasFlag set, carriedFlag = that flag); an own flag, or any flag touched while carrying, changes nothing; positions, scores, guards and other flags are untouched |
| `Rules.WinCheck` | src/main.js:547-552 | red ≥ 3 gives red (red is tested first); else blue ≥ 3 gives blue; else the match goes on |
| `Rules.TouchBase` | src/main.js:528-554 | on the player's own base with a flag: the player's team counter rises by exactly 1, the other is unchanged, the carried flag and only it is destroyed, the carry state clears, the win check runs; any other base contact changes nothing |
| `Rules.TouchGuard` | src/main.js:557-581 | on enemy ground: a carried flag becomes visible at the player's pre-respawn position, carry clears, the player goes to its spawn point; on own ground: only that guard's x goes back to its startX; scores never change |
| `Rules.Patrolled` | src/main.js:479-487 | a patrol tick moves the guard by direction × dist along x only; past the end of the range it turns to −1, before the start to +1, otherwise the direction is kept; team, range and y never change |
| `Rules.PatrolStep` | src/main.js:479-487 | the patrol tick of one guard changes that guard only |
| `Rules.MovePlayer` | src/main.js:583-604 | a move shifts the player by exactly (dx, dy) and changes nothing else |
| `Rules.ClampPlayer` | src/main.js:607-611 | after the player's update x ∈ [20, W−20] and y ∈ [20, H−20]; each coordinate on its own goes to the nearest edge when outside and is kept when inside; nothing else changes |
| `Invariant.RemovedAtMostOpponents` | src/main.js:528-541 | when only the other team's flags are ever destroyed, at most as many flags are destroyed as that team has |
| `Invariant.InitialTeamCount` | src/main.js:404-443 | each team starts with three flags |
| `Invariant.InitialInv` | src/main.js:498-511 | the start state satisfies the invariant (no flag carried, hasFlag false, scores 0, guards on their start halves) |
| `Invariant.PickupInv` | src/main.js:514-525 | a pickup keeps the invariant (hasFlag ⇔ carriedFlag set, at most one carried flag), changes no team and lowers no counter |
| `Invariant.TouchBaseInv` | src/main.js:528-554 | a capture keeps the invariant: the player's counter still equals the destroyed flags, the other counter stays 0, and the winner is set exactly at 3 |
| `Invariant.TouchGuardInv` | src/main.js:557-581 | a tag keeps the invariant: dropping the flag clears both hasFlag and carriedFlag together |
| `Invariant.PatrolStepInv` | src/main.js:470-487 | a patrol tick keeps the invariant; in particular a guard's team stays the territory of its startX even if it crosses the midline |
| `Invariant.AtMostOneCarried` | src/main.js:518-521 | in every reachable state at most one flag is hidden in the player's hands |
| `Invariant.PatrolConfined` | src/main.js:479-487 | with ticks of at most `reach`, a guard never gets more than `reach` outside its range, and whenever it is outside it is heading back |
| `Play.StepInv` | src/main.js:514-611 | any single handler call keeps the invariant, the fixed attributes and the monotone counters |
| `Play.Run` | src/main.js:514-611 | after any sequence of handler calls the invariant holds, no team, patrol range or guard row has changed, no counter has gone down and no destroyed flag has come back |
| `Play.MatchOutcome` | src/main.js:528-552 | in every match the opponents' counter stays 0, the player's team never passes 3, a winner exists exactly when it has 3, and that winner is the player's team |
| `Play.WinnerIsFinal` | src/main.js:547-552 | once a winner is set, no later event changes it |
| `Play.StepConfined` | src/main.js:479-487 | one event keeps every guard confined to its patrol range plus one tick |
| `Play.RunConfined` | src/main.js:479-487 | any sequence of events with ticks of at most `reach` keeps every guard within `reach` of its range |
| `Play.GuardsKeepToTheirHalf` | src/main.js:492-496 | with the scene's four guards and ticks shorter than 150, each guard always stays on its own team's half |
| `Play.OneCaptureScenario` | src/main.js:514-554 | red takes blue flag 3, brushes flag 4 (ignored), returns home: red 1, blue 0, no winner, flag 3 destroyed, flag 4 still in place |
| `Play.TaggedCarrierScenario` | src/main.js:557-575 | a red carrier caught at x = 700 drops the flag visible at (700, y) and reappears at (100, H/2) |
| `Play.GuardTaggedScenario` | src/main.js:576-580 | a red player at x = 100 touching a guard sends the guard to (startX, its y) and keeps its own position and flag |
| `Game.Match.constructor` | src/main.js:336-511 | the scene's set-up gives exactly `Rules.Initial` and the invariant |
| `Game.Match.AddPatrolGuard` | src/main.js:461-476 | createPatrolEnemy appends one guard, built as `Rules.NewGuard` says, and changes nothing else |
| `Game.Match.CollideFlag` | src/main.js:514-525 | the flag handler updates the fields in place to exactly `Rules.Pickup` of the old state and keeps the invariant |
| `Game.Match.CollideBase` | src/main.js:528-554 | the base handler updates the counters, destroys the flag, clears the carry state and sets the winner exactly as `Rules.TouchBase` says |
| `Game.Match.CollideGuard` | src/main.js:557-581 | the guard handler drops the flag before respawning the player, or resets the guard, exactly as `Rules.TouchGuard` says |
| `Game.Match.UpdateGuard` | src/main.js:479-487 | the guard's update moves and turns it exactly as `Rules.Patrolled` says, in place |
| `Game.Match.Move` | src/main.js:583-604 | a movement input shifts the player as `Rules.MovePlayer` says |
| `Game.Match.UpdatePlayer` | src/main.js:607-611 | the four bound checks leave the player inside [20, W−20] × [20, H−20], as `Rules.ClampPlayer` says |

## Left out

- The audio manager (oscillators, timers, mute) is not modelled. It is a
  foreign API with no rule content.
- The menu and game-over scenes are not modelled, and neither are the score
  text, the mute button, the territory shading, the centre line and the
  carried-flag indicator. These are presentation only. Entering the
  game-over scene is modelled as setting `winner`.
- The debug log messages are not modelled.
- Keyboard and touch bindings are not modelled. A frame's movement enters as
  an integer (dx, dy).
- The order in which the engine runs input, update callbacks and collision
  checks within one frame is not modelled. `Play.Run` accepts handler calls
  in any order.
- Collision detection is not modelled: bounding boxes, base and flag sizes,
  and the rule that a contact fires only when an overlap begins. Contacts are
  explicit events. A destroyed flag receives none. A hidden, carried flag
  still does.
- Positions and frame times are floating-point in the source. The model uses
  integer coordinates and an integer travel distance per patrol tick.
- The guard's `speed` field (100) is left out of `Rules.Guard`. The distance a
  guard travels in a tick (speed × frame time) is the `dist` parameter.
- The `flagIndex` field of flags is unused by the rules and is not modelled.
- scripts/generate-preview.cjs is not modelled. It only draws a static
  preview image.
