/** A match as a sequence of events, one per handler call, and what holds
    after any such sequence starting from the scene's start state. */
module Play {
  import opened Arena
  import opened Rules
  import opened Invariant

  /** One call of a handler: a contact the collision engine reports, a
      guard's patrol tick, a move of the player, or the player's own update. */
  datatype Event =
    | FlagContact(flag: nat)
    | BaseContact(base: Team)
    | GuardContact(guard: nat)
    | PatrolTick(guard: nat, dist: nat)
    | PlayerMove(dx: int, dy: int)
    | PlayerUpdate

  /** The collision engine reports contacts only with objects in the world:
      no contact with a destroyed flag, and every index names an object. */
  predicate Deliverable(w: World, e: Event)
  {
    match e
    case FlagContact(i) => i < |w.flags| && !w.flags[i].removed
    case GuardContact(i) => i < |w.guards|
    case PatrolTick(i, _) => i < |w.guards|
    case _ => true
  }

  /** The effect of one event; an event that cannot be delivered changes
      nothing. */
  function Step(w: World, e: Event): World
    requires WellFormed(w)
  {
    if !Deliverable(w, e) then w
    else match e
      case FlagContact(i) => Pickup(w, i)
      case BaseContact(b) => TouchBase(w, b)
      case GuardContact(i) => TouchGuard(w, i)
      case PatrolTick(i, d) => PatrolStep(w, i, d)
      case PlayerMove(dx, dy) => MovePlayer(w, dx, dy)
      case PlayerUpdate => ClampPlayer(w)
  }

  lemma StepInv(w: World, e: Event)
    requires Inv(w)
    ensures Inv(Step(w, e)) && Fixtures(w, Step(w, e)) && Progress(w, Step(w, e))
  {
    if Deliverable(w, e) {
      match e
      case FlagContact(i) => PickupInv(w, i);
      case BaseContact(b) => TouchBaseInv(w, b);
      case GuardContact(i) => TouchGuardInv(w, i);
      case PatrolTick(i, d) => PatrolStepInv(w, i, d);
      case PlayerMove(dx, dy) =>
      case PlayerUpdate =>
    }
  }

  /** The state after the events `es`, in order. It keeps the invariant, it
      changes no team, patrol range or guard row, and it never lowers a
      counter or brings back a destroyed flag. */
  function Run(w: World, es: seq<Event>): (r: World)
    requires Inv(w)
    ensures Inv(r) && Fixtures(w, r) && Progress(w, r)
    decreases |es|
  {
    if es == [] then w
    else
      StepInv(w, es[0]);
      Run(Step(w, es[0]), es[1..])
  }

  // ---------------------------------------------------------------------
  // Scores and the winner
  // ---------------------------------------------------------------------

  /** Over any match: the opponents' counter stays 0, the player's team
      never passes 3, and there is a winner exactly when it has reached 3,
      and then it is the player's team. */
  lemma MatchOutcome(team: Team, es: seq<Event>)
    ensures var r := Run(Initial(team), es);
      Score(r, Other(team)) == 0 &&
      Score(r, team) <= WinScore &&
      (r.winner.Some? <==> Score(r, team) == WinScore) &&
      (r.winner.Some? ==> r.winner.value == team)
  {
    InitialInv(team);
    var w := Initial(team);
    var r := Run(w, es);
    RemovedAtMostOpponents(r.flags, team);
    TeamCountOfSameTeams(r.flags, w.flags, Other(team));
    InitialTeamCount(Other(team));
  }

  /** Once a winner is set, no further event changes it. */
  lemma WinnerIsFinal(w: World, es: seq<Event>)
    requires Inv(w) && w.winner.Some?
    ensures Run(w, es).winner == w.winner
  {
  }

  // ---------------------------------------------------------------------
  // Guards
  // ---------------------------------------------------------------------

  ghost predicate AllConfined(w: World, reach: nat)
  {
    forall j :: 0 <= j < |w.guards| ==> Confined(w.guards[j], reach)
  }

  /** No patrol tick in `es` is longer than `reach`. */
  ghost predicate TicksWithin(es: seq<Event>, reach: nat)
  {
    forall k :: 0 <= k < |es| && es[k].PatrolTick? ==> es[k].dist <= reach
  }

  lemma StepConfined(w: World, e: Event, reach: nat)
    requires Inv(w) && AllConfined(w, reach)
    requires e.PatrolTick? ==> e.dist <= reach
    ensures AllConfined(Step(w, e), reach)
  {
  }

  /** With patrol ticks of at most `reach`, every guard stays within `reach`
      of its patrol range whatever else happens. */
  lemma {:induction false} RunConfined(w: World, es: seq<Event>, reach: nat)
    requires Inv(w) && AllConfined(w, reach) && TicksWithin(es, reach)
    ensures AllConfined(Run(w, es), reach)
    decreases |es|
  {
    if es != [] {
      StepInv(w, es[0]);
      StepConfined(w, es[0], reach);
      assert TicksWithin(es[1..], reach) by {
        forall k | 0 <= k < |es[1..]| && es[1..][k].PatrolTick?
          ensures es[1..][k].dist <= reach
        {
          assert es[1..][k] == es[k + 1];
        }
      }
      RunConfined(Step(w, es[0]), es[1..], reach);
    }
  }

  /** In the scene's layout, with patrol ticks shorter than 150, no guard
      ever crosses the midline: each stays on the half of its own team. */
  lemma GuardsKeepToTheirHalf(team: Team, es: seq<Event>, reach: nat)
    requires reach < 150 && TicksWithin(es, reach)
    ensures var r := Run(Initial(team), es);
      forall j :: 0 <= j < |r.guards| ==> Territory(r.guards[j].x) == r.guards[j].team
  {
    var w := Initial(team);
    InitialInv(team);
    RunConfined(w, es, reach);
    var r := Run(w, es);
    forall j | 0 <= j < |r.guards|
      ensures Territory(r.guards[j].x) == r.guards[j].team
    {
      assert r.guards[j].startX == w.guards[j].startX;
    }
  }

  // ---------------------------------------------------------------------
  // Scenarios
  // ---------------------------------------------------------------------

  /** A red player takes a blue flag, brushes a second one, then brings the
      first home: the second contact is ignored, red scores one, the first
      flag is destroyed and the second is still in place. */
  lemma OneCaptureScenario()
    ensures var r := Run(Initial(Red), [FlagContact(3), FlagContact(4), BaseContact(Red)]);
      r.redScore == 1 && r.blueScore == 0 && r.winner == None &&
      r.flags[3].removed && r.flags[4] == Initial(Red).flags[4] &&
      !r.player.hasFlag
  {
  }

  /** A red player carrying a flag is caught at x = 700, on the blue half:
      the flag reappears visible where the player stood, the player carries
      nothing and is back at (100, H/2). */
  lemma TaggedCarrierScenario(w: World, i: nat)
    requires Inv(w) && w.player.team == Red && w.player.x == 700 && w.player.hasFlag
    requires i < |w.guards|
    ensures var r := TouchGuard(w, i);
      var c := w.player.carried.value;
      !r.player.hasFlag && !r.flags[c].hidden && !r.flags[c].removed &&
      r.flags[c].x == 700 && r.flags[c].y == w.player.y &&
      r.player.x == 100 && r.player.y == H / 2
  {
  }

  /** A red player at x = 100, on its own half, touching guard `i`: the guard
      goes back to the start of its patrol on its own row; the player keeps
      its position and its flag. */
  lemma GuardTaggedScenario(w: World, i: nat)
    requires Inv(w) && w.player.team == Red && w.player.x == 100
    requires i < |w.guards|
    ensures var r := TouchGuard(w, i);
      r.guards[i].x == w.guards[i].startX && r.guards[i].y == w.guards[i].y &&
      r.player == w.player && r.flags == w.flags
  {
  }
}
