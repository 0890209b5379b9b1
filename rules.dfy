/** The match rules of the "game" scene as functions on a value that holds
    the whole state of one match: the player, the six flags, the patrolling
    guards, the two score counters and the winner, once there is one. Each
    function is one handler of the scene; Game.Match runs the same rules as
    in-place updates. */
module Rules {
  import opened Arena

  datatype Option<T> = None | Some(value: T)

  /** A flag: its home team, where it stands, whether it is hidden because
      the player carries it, and whether a capture has destroyed it. */
  datatype Flag = Flag(team: Team, x: int, y: int, hidden: bool, removed: bool)

  /** A patrolling guard: the team it was given at creation, the start of its
      patrol range and the range's width, its position and the sign (+1 or
      -1) of its current direction along x. */
  datatype Guard = Guard(team: Team, startX: int, patrolWidth: int, x: int, y: int, direction: int)

  /** The one player: its team, position, whether it has a flag and the
      index of the flag it carries. */
  datatype Player = Player(team: Team, x: int, y: int, hasFlag: bool, carried: Option<nat>)

  datatype World = World(player: Player, flags: seq<Flag>, guards: seq<Guard>,
                         redScore: nat, blueScore: nat, winner: Option<Team>)

  /** The counter of team `t`. */
  function Score(w: World, t: Team): nat
  {
    if t == Red then w.redScore else w.blueScore
  }

  /** What the handlers rely on: a player with a flag has a carried flag, and
      a carried flag is one of the match's flags. */
  predicate WellFormed(w: World)
  {
    (w.player.hasFlag <==> w.player.carried.Some?) &&
    (w.player.carried.Some? ==> w.player.carried.value < |w.flags|)
  }

  // ---------------------------------------------------------------------
  // Set-up
  // ---------------------------------------------------------------------

  /** A guard as createPatrolEnemy makes it: its team is the half its start
      lies in, it starts at its start, moving right. */
  function NewGuard(startX: int, startY: int, patrolWidth: int): (g: Guard)
    ensures g.team == Territory(startX)
    ensures g.x == g.startX == startX && g.y == startY && g.patrolWidth == patrolWidth
    ensures g.direction == 1
  {
    Guard(if startX < W / 2 then Red else Blue, startX, patrolWidth, startX, startY, 1)
  }

  /** Three red flags on the left edge, then their mirror images in blue. */
  function InitialFlags(): (fs: seq<Flag>)
    ensures |fs| == 6
    ensures forall i :: 0 <= i < |fs| ==> !fs[i].hidden && !fs[i].removed
    ensures forall i :: 0 <= i < |fs| ==> fs[i].team == (if i < 3 then Red else Blue)
    ensures forall i :: 0 <= i < |fs| ==> !InEnemyTerritory(fs[i].team, fs[i].x)
  {
    [ Flag(Red, 80, 150, false, false),
      Flag(Red, 60, 300, false, false),
      Flag(Red, 40, 450, false, false),
      Flag(Blue, W - 80, 150, false, false),
      Flag(Blue, W - 60, 300, false, false),
      Flag(Blue, W - 40, 450, false, false) ]
  }

  /** Two guards in each half: on rows 200 and 400, patrolling 100 and 80
      to the right of x = 150 (red) and of x = W - 250 (blue), all at the
      start of their range and heading right. */
  function InitialGuards(): (gs: seq<Guard>)
    ensures |gs| == 4
    ensures forall j :: 0 <= j < |gs| ==>
              gs[j].team == (if j < 2 then Red else Blue) &&
              gs[j].startX == (if j < 2 then 150 else W - 250) &&
              gs[j].patrolWidth == (if j % 2 == 0 then 100 else 80) &&
              gs[j].y == (if j % 2 == 0 then 200 else 400) &&
              gs[j].x == gs[j].startX && gs[j].direction == 1
  {
    [ NewGuard(150, 200, 100),
      NewGuard(150, 400, 80),
      NewGuard(W - 250, 200, 100),
      NewGuard(W - 250, 400, 80) ]
  }

  /** The state when the scene starts for a player of `team`: nobody has
      scored, the player stands at its spawn point with no flag. */
  function Initial(team: Team): (w: World)
    ensures w.player.team == team && !w.player.hasFlag && w.player.carried == None
    ensures w.player.x == SpawnX(team) && w.player.y == SpawnY()
    ensures InBounds(w.player.x, w.player.y)
    ensures w.redScore == 0 && w.blueScore == 0 && w.winner == None
    ensures w.flags == InitialFlags() && w.guards == InitialGuards()
  {
    World(Player(team, SpawnX(team), SpawnY(), false, None),
          InitialFlags(), InitialGuards(), 0, 0, None)
  }

  // ---------------------------------------------------------------------
  // Contact with a flag
  // ---------------------------------------------------------------------

  /** The player touches flag `i`. It takes the flag only if the flag is the
      other team's and the player carries nothing; otherwise nothing happens.
      The collision engine reports contacts only with flags still in the
      world, hence the requirement that flag `i` is not destroyed. */
  function Pickup(w: World, i: nat): (r: World)
    requires i < |w.flags| && !w.flags[i].removed
    ensures |r.flags| == |w.flags|
    ensures w.flags[i].team == w.player.team || w.player.hasFlag ==> r == w
    ensures w.flags[i].team != w.player.team && !w.player.hasFlag ==>
              r.player.hasFlag && r.player.carried == Some(i) && r.flags[i].hidden
    ensures r.player.team == w.player.team && r.player.x == w.player.x && r.player.y == w.player.y
    ensures forall j :: 0 <= j < |w.flags| && j != i ==> r.flags[j] == w.flags[j]
    ensures r.flags[i].team == w.flags[i].team && !r.flags[i].removed
    ensures r.flags[i].x == w.flags[i].x && r.flags[i].y == w.flags[i].y
    ensures r.guards == w.guards && r.redScore == w.redScore && r.blueScore == w.blueScore
    ensures r.winner == w.winner
  {
    var isEnemyFlag := w.flags[i].team != w.player.team;
    if isEnemyFlag && !w.player.hasFlag then
      w.(player := w.player.(hasFlag := true, carried := Some(i)),
         flags := w.flags[i := w.flags[i].(hidden := true)])
    else
      w
  }

  // ---------------------------------------------------------------------
  // Contact with a base
  // ---------------------------------------------------------------------

  /** The win check that follows a capture: red is tested first, and when
      neither counter has reached the threshold the match goes on. */
  function WinCheck(redScore: nat, blueScore: nat, prior: Option<Team>): (r: Option<Team>)
    ensures redScore >= WinScore ==> r == Some(Red)
    ensures redScore < WinScore && blueScore >= WinScore ==> r == Some(Blue)
    ensures redScore < WinScore && blueScore < WinScore ==> r == prior
  {
    if redScore >= WinScore then Some(Red)
    else if blueScore >= WinScore then Some(Blue)
    else prior
  }

  /** The player touches the base of team `base`. Only on its own base and
      only with a flag does this count: the player's team scores one, the
      carried flag is destroyed, the player carries nothing, and the win
      check runs. */
  function TouchBase(w: World, base: Team): (r: World)
    requires WellFormed(w)
    ensures base != w.player.team || !w.player.hasFlag ==> r == w
    ensures base == w.player.team && w.player.hasFlag ==>
              var c := w.player.carried.value;
              Score(r, w.player.team) == Score(w, w.player.team) + 1 &&
              Score(r, Other(w.player.team)) == Score(w, Other(w.player.team)) &&
              !r.player.hasFlag && r.player.carried == None &&
              |r.flags| == |w.flags| && r.flags[c] == w.flags[c].(removed := true) &&
              (forall j :: 0 <= j < |w.flags| && j != c ==> r.flags[j] == w.flags[j]) &&
              r.winner == WinCheck(r.redScore, r.blueScore, w.winner)
    ensures r.player.team == w.player.team && r.player.x == w.player.x && r.player.y == w.player.y
    ensures r.guards == w.guards
  {
    var isOwnBase := base == w.player.team;
    if isOwnBase && w.player.hasFlag then
      var red := if w.player.team == Red then w.redScore + 1 else w.redScore;
      var blue := if w.player.team == Red then w.blueScore else w.blueScore + 1;
      var c := w.player.carried.value;
      w.(redScore := red, blueScore := blue,
         flags := w.flags[c := w.flags[c].(removed := true)],
         player := w.player.(hasFlag := false, carried := None),
         winner := WinCheck(red, blue, w.winner))
    else
      w
  }

  // ---------------------------------------------------------------------
  // Contact with a guard
  // ---------------------------------------------------------------------

  /** The player touches guard `i`. Where the player stands decides: on the
      opponents' half the player is tagged, drops any flag where it stands
      (made visible again) and goes back to its spawn point; on its own half
      the guard is sent back to the start of its patrol instead. */
  function TouchGuard(w: World, i: nat): (r: World)
    requires WellFormed(w) && i < |w.guards|
    ensures InEnemyTerritory(w.player.team, w.player.x) ==>
              r.player.team == w.player.team &&
              r.player.x == SpawnX(w.player.team) && r.player.y == SpawnY() &&
              !r.player.hasFlag && r.player.carried == None &&
              r.guards == w.guards && |r.flags| == |w.flags| &&
              (forall j :: 0 <= j < |w.flags| && w.player.carried != Some(j) ==> r.flags[j] == w.flags[j]) &&
              (w.player.hasFlag ==>
                 var c := w.player.carried.value;
                 r.flags[c] == w.flags[c].(hidden := false, x := w.player.x, y := w.player.y))
    ensures !InEnemyTerritory(w.player.team, w.player.x) ==>
              r.player == w.player && r.flags == w.flags &&
              |r.guards| == |w.guards| &&
              r.guards[i] == w.guards[i].(x := w.guards[i].startX) &&
              (forall j :: 0 <= j < |w.guards| && j != i ==> r.guards[j] == w.guards[j])
    ensures r.redScore == w.redScore && r.blueScore == w.blueScore && r.winner == w.winner
  {
    if InEnemyTerritory(w.player.team, w.player.x) then
      var p := w.player;
      var dropped :=
        if p.hasFlag && p.carried.Some? then
          w.(flags := w.flags[p.carried.value := w.flags[p.carried.value].(hidden := false, x := p.x, y := p.y)],
             player := p.(hasFlag := false, carried := None))
        else w;
      dropped.(player := dropped.player.(x := SpawnX(p.team), y := SpawnY()))
    else
      var g := w.guards[i];
      w.(guards := w.guards[i := g.(x := g.startX)])
  }

  // ---------------------------------------------------------------------
  // Per-tick updates
  // ---------------------------------------------------------------------

  /** One tick of a guard's patrol: it moves `dist` (its speed times the
      frame time) in its current direction, then turns left if past the end
      of its range or right if before its start. Nothing else about it
      changes. */
  function Patrolled(g: Guard, dist: nat): (r: Guard)
    ensures r.team == g.team && r.startX == g.startX && r.patrolWidth == g.patrolWidth && r.y == g.y
    ensures r.x == g.x + g.direction * dist
    ensures r.x > g.startX + g.patrolWidth ==> r.direction == -1
    ensures g.startX <= r.x <= g.startX + g.patrolWidth ==> r.direction == g.direction
    ensures g.startX + g.patrolWidth >= r.x && r.x < g.startX ==> r.direction == 1
  {
    var x := g.x + g.direction * dist;
    var d := if x > g.startX + g.patrolWidth then -1 else if x < g.startX then 1 else g.direction;
    g.(x := x, direction := d)
  }

  /** The patrol tick of guard `i`; every other part of the match is kept. */
  function PatrolStep(w: World, i: nat, dist: nat): (r: World)
    requires i < |w.guards|
    ensures |r.guards| == |w.guards| && r.guards[i] == Patrolled(w.guards[i], dist)
    ensures forall j :: 0 <= j < |w.guards| && j != i ==> r.guards[j] == w.guards[j]
    ensures r.player == w.player && r.flags == w.flags
    ensures r.redScore == w.redScore && r.blueScore == w.blueScore && r.winner == w.winner
  {
    w.(guards := w.guards[i := Patrolled(w.guards[i], dist)])
  }

  /** The player moves by (dx, dy): the input's direction times its speed
      times the frame time. No bound applies until the player's own update. */
  function MovePlayer(w: World, dx: int, dy: int): (r: World)
    ensures r.player.x - w.player.x == dx && r.player.y - w.player.y == dy
    ensures r.player.team == w.player.team && r.player.hasFlag == w.player.hasFlag
    ensures r.player.carried == w.player.carried
    ensures r.flags == w.flags && r.guards == w.guards
    ensures r.redScore == w.redScore && r.blueScore == w.blueScore && r.winner == w.winner
  {
    w.(player := w.player.(x := w.player.x + dx, y := w.player.y + dy))
  }

  /** The player's own update: each coordinate on its own is pulled back
      to the nearest edge of the margin; a position already inside is kept. */
  function ClampPlayer(w: World): (r: World)
    ensures InBounds(r.player.x, r.player.y)
    ensures r.player.x == Clamp(w.player.x, Margin, W - Margin)
    ensures r.player.y == Clamp(w.player.y, Margin, H - Margin)
    ensures InBounds(w.player.x, w.player.y) ==> r == w
    ensures r.player.team == w.player.team && r.player.hasFlag == w.player.hasFlag
    ensures r.player.carried == w.player.carried
    ensures r.flags == w.flags && r.guards == w.guards
    ensures r.redScore == w.redScore && r.blueScore == w.blueScore && r.winner == w.winner
  {
    w.(player := w.player.(x := Clamp(w.player.x, Margin, W - Margin),
                           y := Clamp(w.player.y, Margin, H - Margin)))
  }
}
