/** The invariant every reachable match state keeps, and the proof that the
    scene's start state has it and that every handler preserves it. */
module Invariant {
  import opened Arena
  import opened Rules

  /** Number of flags that captures have destroyed. */
  function RemovedCount(fs: seq<Flag>): nat
  {
    if fs == [] then 0 else (if fs[0].removed then 1 else 0) + RemovedCount(fs[1..])
  }

  /** Number of flags whose home team is `t`. */
  function TeamCount(fs: seq<Flag>, t: Team): nat
  {
    if fs == [] then 0 else (if fs[0].team == t then 1 else 0) + TeamCount(fs[1..], t)
  }

  /** Possession: the player has a flag exactly when it carries one, the
      carried flag is an opponents' flag, hidden and still in the world, and
      no other flag is hidden; so the player carries at most one flag. */
  ghost predicate Possession(w: World)
  {
    WellFormed(w) &&
    (w.player.carried.Some? ==>
       var c := w.player.carried.value;
       w.flags[c].team != w.player.team && w.flags[c].hidden && !w.flags[c].removed) &&
    (forall i :: 0 <= i < |w.flags| && w.flags[i].hidden && !w.flags[i].removed ==>
       w.player.carried == Some(i))
  }

  /** Scoring: only opponents' flags are ever destroyed, one per point of the
      player's team; the other team never scores; the winner is the player's
      team exactly when its counter has reached the threshold. */
  ghost predicate Scoring(w: World)
  {
    (forall i :: 0 <= i < |w.flags| && w.flags[i].removed ==> w.flags[i].team != w.player.team) &&
    Score(w, w.player.team) == RemovedCount(w.flags) &&
    Score(w, Other(w.player.team)) == 0 &&
    w.winner == (if Score(w, w.player.team) >= WinScore then Some(w.player.team) else None)
  }

  /** A guard keeps the team of the half its patrol starts in and moves in
      direction +1 or -1. */
  predicate GuardOk(g: Guard)
  {
    g.team == Territory(g.startX) && (g.direction == 1 || g.direction == -1)
  }

  ghost predicate GuardsOk(w: World)
  {
    forall j :: 0 <= j < |w.guards| ==> GuardOk(w.guards[j])
  }

  ghost predicate Inv(w: World)
  {
    Possession(w) && Scoring(w) && GuardsOk(w)
  }

  /** What no handler ever changes: the player's team, each flag's team, and
      each guard's team, patrol range and row. */
  ghost predicate Fixtures(w: World, r: World)
  {
    r.player.team == w.player.team &&
    |r.flags| == |w.flags| &&
    (forall i :: 0 <= i < |w.flags| ==> r.flags[i].team == w.flags[i].team) &&
    |r.guards| == |w.guards| &&
    (forall j :: 0 <= j < |w.guards| ==>
       r.guards[j].team == w.guards[j].team && r.guards[j].startX == w.guards[j].startX &&
       r.guards[j].patrolWidth == w.guards[j].patrolWidth && r.guards[j].y == w.guards[j].y)
  }

  /** What only ever grows: both counters, and the set of destroyed flags. */
  ghost predicate Progress(w: World, r: World)
  {
    r.redScore >= w.redScore && r.blueScore >= w.blueScore &&
    |r.flags| == |w.flags| &&
    (forall i :: 0 <= i < |w.flags| && w.flags[i].removed ==> r.flags[i].removed)
  }

  // ---------------------------------------------------------------------
  // Counting
  // ---------------------------------------------------------------------

  lemma {:induction false} RemovedCountUpdate(fs: seq<Flag>, i: nat, f: Flag)
    requires i < |fs|
    ensures RemovedCount(fs[i := f]) + (if fs[i].removed then 1 else 0)
            == RemovedCount(fs) + (if f.removed then 1 else 0)
  {
    if i == 0 {
      assert fs[i := f][1..] == fs[1..];
    } else {
      assert fs[i := f][1..] == fs[1..][i - 1 := f];
      RemovedCountUpdate(fs[1..], i - 1, f);
    }
  }

  lemma {:induction false} NoneRemoved(fs: seq<Flag>)
    requires forall i :: 0 <= i < |fs| ==> !fs[i].removed
    ensures RemovedCount(fs) == 0
  {
    if fs != [] {
      NoneRemoved(fs[1..]);
    }
  }

  /** Destroyed flags are all of the other team, so there are no more of them
      than that team has flags. */
  lemma {:induction false} RemovedAtMostOpponents(fs: seq<Flag>, t: Team)
    requires forall i :: 0 <= i < |fs| && fs[i].removed ==> fs[i].team != t
    ensures RemovedCount(fs) <= TeamCount(fs, Other(t))
  {
    if fs != [] {
      assert fs[0].removed ==> fs[0].team == Other(t);
      RemovedAtMostOpponents(fs[1..], t);
    }
  }

  lemma {:induction false} TeamCountOfSameTeams(a: seq<Flag>, b: seq<Flag>, t: Team)
    requires |a| == |b|
    requires forall i :: 0 <= i < |a| ==> a[i].team == b[i].team
    ensures TeamCount(a, t) == TeamCount(b, t)
  {
    if a != [] {
      TeamCountOfSameTeams(a[1..], b[1..], t);
    }
  }

  /** Each team starts with three flags. */
  lemma InitialTeamCount(t: Team)
    ensures TeamCount(InitialFlags(), t) == 3
  {
  }

  // ---------------------------------------------------------------------
  // The invariant holds at the start and after every handler
  // ---------------------------------------------------------------------

  lemma InitialInv(team: Team)
    ensures Inv(Initial(team))
  {
  }

  lemma PickupInv(w: World, i: nat)
    requires Inv(w) && i < |w.flags| && !w.flags[i].removed
    ensures Inv(Pickup(w, i)) && Fixtures(w, Pickup(w, i)) && Progress(w, Pickup(w, i))
  {
    RemovedCountUpdate(w.flags, i, w.flags[i].(hidden := true));
  }

  lemma TouchBaseInv(w: World, base: Team)
    requires Inv(w)
    ensures Inv(TouchBase(w, base)) && Fixtures(w, TouchBase(w, base)) && Progress(w, TouchBase(w, base))
  {
    if base == w.player.team && w.player.hasFlag {
      var c := w.player.carried.value;
      RemovedCountUpdate(w.flags, c, w.flags[c].(removed := true));
    }
  }

  lemma TouchGuardInv(w: World, i: nat)
    requires Inv(w) && i < |w.guards|
    ensures Inv(TouchGuard(w, i)) && Fixtures(w, TouchGuard(w, i)) && Progress(w, TouchGuard(w, i))
  {
    if InEnemyTerritory(w.player.team, w.player.x) && w.player.hasFlag {
      var c := w.player.carried.value;
      RemovedCountUpdate(w.flags, c, w.flags[c].(hidden := false, x := w.player.x, y := w.player.y));
    }
  }

  lemma PatrolStepInv(w: World, i: nat, dist: nat)
    requires Inv(w) && i < |w.guards|
    ensures Inv(PatrolStep(w, i, dist)) && Fixtures(w, PatrolStep(w, i, dist))
    ensures Progress(w, PatrolStep(w, i, dist))
  {
  }

  /** The player carries at most one flag: at most one flag in the world is
      hidden. */
  lemma AtMostOneCarried(w: World)
    requires Inv(w)
    ensures forall i, j :: 0 <= i < j < |w.flags| && w.flags[i].hidden && !w.flags[i].removed ==>
              !(w.flags[j].hidden && !w.flags[j].removed)
  {
  }

  // ---------------------------------------------------------------------
  // Patrol range
  // ---------------------------------------------------------------------

  /** A guard's patrol range is not empty, the guard is at most `reach`
      outside it, and when it is outside it is heading back in. */
  ghost predicate Confined(g: Guard, reach: nat)
  {
    g.patrolWidth >= 0 &&
    g.startX - reach <= g.x <= g.startX + g.patrolWidth + reach &&
    (g.x > g.startX + g.patrolWidth ==> g.direction == -1) &&
    (g.x < g.startX ==> g.direction == 1)
  }

  /** A patrol tick no longer than `reach` keeps a guard confined: it can
      overshoot the end of its range by less than one tick, and then turns. */
  lemma PatrolConfined(g: Guard, dist: nat, reach: nat)
    requires GuardOk(g) && Confined(g, reach) && dist <= reach
    ensures Confined(Patrolled(g, dist), reach)
  {
  }
}
