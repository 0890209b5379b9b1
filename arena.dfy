/** The arena of one match: its fixed size, the two teams, the vertical
    midline that splits it into a red and a blue half, the players' spawn
    points and the margin the player is kept inside. */
module Arena {

  /** Width and height of the arena (main.js GAME_WIDTH, GAME_HEIGHT). */
  const W: int := 800
  const H: int := 600

  /** Distance from each edge that the player's centre is kept away from. */
  const Margin: int := 20

  /** Captures a team needs to win. */
  const WinScore: nat := 3

  datatype Team = Red | Blue

  /** The team that is not `t`. */
  function Other(t: Team): (o: Team)
    ensures o != t
  {
    if t == Red then Blue else Red
  }

  /** The half of the arena an x coordinate lies in: the red half is the
      left one, strictly before the midline; the midline itself is blue. */
  function Territory(x: int): (t: Team)
    ensures t == Red <==> x < 400
    ensures t == Blue <==> x >= 400
  {
    if x < W / 2 then Red else Blue
  }

  /** Whether something of `team` standing at `x` is on the opponents' half. */
  function InEnemyTerritory(team: Team, x: int): (b: bool)
    ensures b <==> (team == Red && x >= W / 2) || (team == Blue && x < W / 2)
  {
    Territory(x) != team
  }

  /** Where a player of `team` (re)appears: 100 in from its own side edge,
      halfway down the arena. */
  function SpawnX(team: Team): (x: int)
    ensures !InEnemyTerritory(team, x)
    ensures Margin <= x <= W - Margin
  {
    if team == Red then 100 else W - 100
  }

  function SpawnY(): (y: int)
    ensures Margin <= y <= H - Margin
  {
    H / 2
  }

  /** Whether a player position lies inside the margin the player is kept in. */
  predicate InBounds(x: int, y: int)
  {
    Margin <= x <= W - Margin && Margin <= y <= H - Margin
  }

  /** Keeps `v` inside [lo, hi] by two checks in order: raise it to `lo`
      if below, then lower it to `hi` if above. */
  function Clamp(v: int, lo: int, hi: int): (r: int)
    requires lo <= hi
    ensures lo <= r <= hi
    ensures lo <= v <= hi ==> r == v
    ensures v < lo ==> r == lo
    ensures v > hi ==> r == hi
  {
    var raised := if v < lo then lo else v;
    if raised > hi then hi else raised
  }
}
