/** The "game" scene as the object it is at run time: the score counters of
    the scene's closure, the player's fields, the flags and the guards, each
    updated in place by the scene's handlers. Every handler is proved to do
    what the function of the same rule in module Rules says, and so to keep
    the invariant of module Invariant. */
module Game {
  import opened Arena
  import opened Rules
  import opened Invariant

  class Match {
    const playerTeam: Team
    var playerX: int
    var playerY: int
    var hasFlag: bool
    var carriedFlag: Option<nat>
    var flags: seq<Flag>
    var guards: seq<Guard>
    var redScore: nat
    var blueScore: nat
    /** The team the scene hands to the game-over scene, once one has won. */
    var winner: Option<Team>

    /** The match as a value. */
    ghost function State(): World
      reads this
    {
      World(Player(playerTeam, playerX, playerY, hasFlag, carriedFlag),
            flags, guards, redScore, blueScore, winner)
    }

    ghost predicate Valid()
      reads this
    {
      Inv(State())
    }

    /** The scene starts: scores at zero, the six flags, the four guards and
        the player at its spawn point with no flag. */
    constructor (team: Team)
      ensures Valid() && State() == Initial(team)
    {
      playerTeam := team;
      redScore, blueScore := 0, 0;
      flags := InitialFlags();
      guards := [];
      playerX, playerY := SpawnX(team), SpawnY();
      hasFlag, carriedFlag := false, None;
      winner := None;
      new;
      NoneRemoved(flags);
      AddPatrolGuard(150, 200, 100);
      AddPatrolGuard(150, 400, 80);
      AddPatrolGuard(W - 250, 200, 100);
      AddPatrolGuard(W - 250, 400, 80);
    }

    /** Adds a guard patrolling from `startX` to `startX + patrolWidth` on
        row `startY`; its team is the half `startX` lies in. */
    method AddPatrolGuard(startX: int, startY: int, patrolWidth: int)
      requires Valid()
      modifies this
      ensures Valid()
      ensures State() == old(State()).(guards := old(guards) + [NewGuard(startX, startY, patrolWidth)])
    {
      var team := if startX < W / 2 then Red else Blue;
      guards := guards + [Guard(team, startX, patrolWidth, startX, startY, 1)];
    }

    /** The player touches flag `i`. */
    method CollideFlag(i: nat)
      requires Valid() && i < |flags| && !flags[i].removed
      modifies this
      ensures Valid() && State() == Pickup(old(State()), i)
    {
      PickupInv(State(), i);
      var isEnemyFlag := flags[i].team != playerTeam;
      if isEnemyFlag && !hasFlag {
        hasFlag := true;
        carriedFlag := Some(i);
        flags := flags[i := flags[i].(hidden := true)];
      }
    }

    /** The player touches the base of team `base`. */
    method CollideBase(base: Team)
      requires Valid()
      modifies this
      ensures Valid() && State() == TouchBase(old(State()), base)
    {
      TouchBaseInv(State(), base);
      var isOwnBase := base == playerTeam;
      if isOwnBase && hasFlag {
        if playerTeam == Red {
          redScore := redScore + 1;
        } else {
          blueScore := blueScore + 1;
        }
        var c := carriedFlag.value;
        flags := flags[c := flags[c].(removed := true)];
        hasFlag := false;
        carriedFlag := None;
        if redScore >= WinScore {
          winner := Some(Red);
        } else if blueScore >= WinScore {
          winner := Some(Blue);
        }
      }
    }

    /** The player touches guard `i`. */
    method CollideGuard(i: nat)
      requires Valid() && i < |guards|
      modifies this
      ensures Valid() && State() == TouchGuard(old(State()), i)
    {
      TouchGuardInv(State(), i);
      var playerInEnemyTerritory := InEnemyTerritory(playerTeam, playerX);
      if playerInEnemyTerritory {
        if hasFlag && carriedFlag.Some? {
          var c := carriedFlag.value;
          flags := flags[c := flags[c].(hidden := false, x := playerX, y := playerY)];
          hasFlag := false;
          carriedFlag := None;
        }
        if playerTeam == Red {
          playerX, playerY := 100, H / 2;
        } else {
          playerX, playerY := W - 100, H / 2;
        }
      } else {
        guards := guards[i := guards[i].(x := guards[i].startX)];
      }
    }

    /** Guard `i`'s update for one frame, in which it travels `dist`. */
    method UpdateGuard(i: nat, dist: nat)
      requires Valid() && i < |guards|
      modifies this
      ensures Valid() && State() == PatrolStep(old(State()), i, dist)
    {
      PatrolStepInv(State(), i, dist);
      var g := guards[i];
      g := g.(x := g.x + g.direction * dist);
      if g.x > g.startX + g.patrolWidth {
        g := g.(direction := -1);
      } else if g.x < g.startX {
        g := g.(direction := 1);
      }
      guards := guards[i := g];
    }

    /** The player moves by (dx, dy) in one frame. */
    method Move(dx: int, dy: int)
      requires Valid()
      modifies this
      ensures Valid() && State() == MovePlayer(old(State()), dx, dy)
    {
      playerX := playerX + dx;
      playerY := playerY + dy;
    }

    /** The player's own update: it is pushed back inside the margin. */
    method UpdatePlayer()
      requires Valid()
      modifies this
      ensures Valid() && State() == ClampPlayer(old(State()))
      ensures InBounds(playerX, playerY)
    {
      if playerX < Margin { playerX := Margin; }
      if playerX > W - Margin { playerX := W - Margin; }
      if playerY < Margin { playerY := Margin; }
      if playerY > H - Margin { playerY := H - Margin; }
    }
  }
}
