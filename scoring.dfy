/** The match resolver's arithmetic: how the random draws of one match turn into
    a score line, a knockout verdict and group points. Nothing here touches a team:
    the ratings only bound the draws, and the bound is the hypothesis `Fits`. */
module Scoring {

  /** A value of randint(0, 1): the coin that settles a level knockout match. */
  type Bit = b: nat | b <= 1

  /** The random integers one match consumes, named from the point of view of
      the calling team ("home", Python's `self`) against its opponent ("away"). */
  datatype Draws = Draws(
    homeAttack: nat,   // randint(0, self.attack)
    awayDefense: nat,  // randint(0, opponent.defense)
    awayAttack: nat,   // randint(0, opponent.attack)
    homeDefense: nat,  // randint(0, self.defense)
    coin: Bit)         // randint(0, 1), drawn only when a knockout match is level

  /** The draws are ones randint can produce for these ratings. */
  predicate Fits(d: Draws, homeAttack: nat, homeDefense: nat, awayAttack: nat, awayDefense: nat) {
    && d.homeAttack <= homeAttack
    && d.awayDefense <= awayDefense
    && d.awayAttack <= awayAttack
    && d.homeDefense <= homeDefense
  }

  /** Goals of one side: its attack draw divided by one more than the opposing
      defense draw, rounded down (Python's int() of a non-negative quotient). */
  function Goals(attackDraw: nat, defenseDraw: nat): (g: nat)
    ensures g <= attackDraw
    ensures g * (1 + defenseDraw) <= attackDraw < (g + 1) * (1 + defenseDraw)
    ensures defenseDraw == 0 ==> g == attackDraw
  {
    attackDraw / (1 + defenseDraw)
  }

  function HomeGoals(d: Draws): nat {
    Goals(d.homeAttack, d.awayDefense)
  }

  function AwayGoals(d: Draws): nat {
    Goals(d.awayAttack, d.homeDefense)
  }

  /** Knockout verdict from the calling team's side: 1 when it wins, 0 when it
      loses, the coin when the score is level. */
  function KnockoutResult(d: Draws): (r: Bit)
    ensures r == 1 ==> HomeGoals(d) >= AwayGoals(d)
    ensures r == 0 ==> HomeGoals(d) <= AwayGoals(d)
    ensures HomeGoals(d) == AwayGoals(d) ==> r == d.coin
  {
    if HomeGoals(d) > AwayGoals(d) then 1
    else if HomeGoals(d) < AwayGoals(d) then 0
    else d.coin
  }

  /** Group points for a side that scored `scored` and conceded `conceded`. */
  function PointsFor(scored: nat, conceded: nat): nat {
    if scored > conceded then 3 else if scored < conceded then 0 else 1
  }

  /** A team's per-run group record. */
  datatype Record = Record(points: nat, goalsFor: nat, goalsAgainst: nat)

  const Fresh := Record(0, 0, 0)

  /** The record after one more group match with the given score line. */
  function Credit(r: Record, scored: nat, conceded: nat): Record {
    Record(r.points + PointsFor(scored, conceded), r.goalsFor + scored, r.goalsAgainst + conceded)
  }

  /** Each side scores at least nothing and at most its own attack rating. */
  lemma GoalsWithinAttack(d: Draws, homeAttack: nat, homeDefense: nat, awayAttack: nat, awayDefense: nat)
    requires Fits(d, homeAttack, homeDefense, awayAttack, awayDefense)
    ensures 0 <= HomeGoals(d) <= homeAttack
    ensures 0 <= AwayGoals(d) <= awayAttack
  {
  }

  lemma MulMonotone(a: nat, b: nat, c: nat)
    requires a <= b
    ensures a * c <= b * c
  {
  }

  /** A larger attack draw never yields fewer goals. */
  lemma GoalsGrowWithAttack(a: nat, a': nat, d: nat)
    requires a <= a'
    ensures Goals(a, d) <= Goals(a', d)
  {
    var g, g' := Goals(a, d), Goals(a', d);
    if g' + 1 <= g {
      MulMonotone(g' + 1, g, 1 + d);
    }
  }

  /** A larger opposing defense draw never yields more goals. */
  lemma GoalsShrinkWithDefense(a: nat, d: nat, d': nat)
    requires d <= d'
    ensures Goals(a, d') <= Goals(a, d)
  {
    var g, g' := Goals(a, d), Goals(a, d');
    if g + 1 <= g' {
      MulMonotone(g + 1, g', 1 + d);
      MulMonotone(1 + d, 1 + d', g');
    }
  }

  /** A group match hands out 3 points when decisive and 2 when level, and a
      side earns 3 exactly when it outscores the other. */
  lemma MatchPoints(home: nat, away: nat)
    ensures PointsFor(home, away) + PointsFor(away, home) == if home == away then 2 else 3
    ensures PointsFor(home, away) == 3 <==> home > away
    ensures PointsFor(home, away) == 0 <==> home < away
  {
  }

  /** A knockout match always has a winner, and a side that outscores the other wins. */
  lemma KnockoutDecided(d: Draws)
    ensures KnockoutResult(d) == 1 || KnockoutResult(d) == 0
    ensures HomeGoals(d) > AwayGoals(d) ==> KnockoutResult(d) == 1
    ensures HomeGoals(d) < AwayGoals(d) ==> KnockoutResult(d) == 0
  {
  }
}
