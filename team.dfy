/** The Team entity: fixed identity and ratings, a per-run group record that
    the group stage resets and fills, and cross-run tallies that only grow. */
module Teams {
  import opened Scoring

  datatype Option<T> = None | Some(value: T)

  /** The cross-run tallies of one team, in the order the Team class declares them. */
  datatype Tally = Tally(
    first: nat, second: nat, eighth: nat, quarter: nat,
    semi: nat, third: nat, final: nat, winner: nat)

  function Ind(b: bool): nat {
    if b then 1 else 0
  }

  /** Tallies after a group stage in which the team finished top (`winner`) or
      runner-up (`runnerUp`); both reach the round of 16. */
  function Qualify(c: Tally, winner: bool, runnerUp: bool): Tally {
    c.(first := c.first + Ind(winner), second := c.second + Ind(runnerUp),
       eighth := c.eighth + Ind(winner) + Ind(runnerUp))
  }

  /** Tallies after a knockout stage in which the team reached the quarter-final
      `quarter` times, and so on. */
  function Promote(c: Tally, quarter: nat, semi: nat, final: nat, third: nat, winner: nat): Tally {
    c.(quarter := c.quarter + quarter, semi := c.semi + semi, final := c.final + final,
       third := c.third + third, winner := c.winner + winner)
  }

  /** The knockout rounds whose reaching the tallies count. */
  datatype Round = QuarterFinal | SemiFinal | Final | ThirdPlace | Cup

  /** Tallies after reaching `round` n more times. */
  function Credits(c: Tally, round: Round, n: nat): Tally {
    Promote(c, if round == QuarterFinal then n else 0, if round == SemiFinal then n else 0,
            if round == Final then n else 0, if round == ThirdPlace then n else 0, if round == Cup then n else 0)
  }

  class Team {
    const name: string
    const group: string
    const defense: nat
    const attack: nat
    var points: nat
    var goalsFor: nat
    var goalsAgainst: nat
    var first: nat
    var second: nat
    var eighth: nat
    var quarter: nat
    var semi: nat
    var third: nat
    var final: nat
    var winner: nat

    /** A new team: the given identity and ratings, every counter at zero. */
    constructor (name: string, group: string, defense: nat, attack: nat)
      ensures this.name == name && this.group == group
      ensures this.defense == defense && this.attack == attack
      ensures Record() == Fresh
      ensures Tallies() == Tally(0, 0, 0, 0, 0, 0, 0, 0)
    {
      this.name := name;
      this.group := group;
      this.defense := defense;
      this.attack := attack;
      points, goalsFor, goalsAgainst := 0, 0, 0;
      first, second, eighth, quarter := 0, 0, 0, 0;
      semi, third, final, winner := 0, 0, 0, 0;
    }

    function Record(): Scoring.Record
      reads this`points, this`goalsFor, this`goalsAgainst
    {
      Scoring.Record(points, goalsFor, goalsAgainst)
    }

    function Tallies(): Tally
      reads this`first, this`second, this`eighth, this`quarter, this`semi, this`third, this`final, this`winner
    {
      Tally(first, second, eighth, quarter, semi, third, final, winner)
    }

    /** Plays one match against `opponent` with the draws `d`. In group mode it
        credits both records and returns None; in knockout mode it changes
        nothing and returns 1 when this team wins, 0 when it loses. A team that
        meets itself in group mode is credited with both sides of the match. */
    method Play(opponent: Team, knockout: bool, d: Draws) returns (r: Option<Bit>)
      modifies this, opponent
      ensures knockout ==> r == Some(KnockoutResult(d))
      ensures knockout ==> unchanged(this, opponent)
      ensures !knockout ==> r == None
      ensures !knockout && this != opponent ==>
        && Record() == Credit(old(Record()), HomeGoals(d), AwayGoals(d))
        && opponent.Record() == Credit(old(opponent.Record()), AwayGoals(d), HomeGoals(d))
      ensures !knockout && this == opponent ==>
        Record() == Credit(Credit(old(Record()), HomeGoals(d), AwayGoals(d)), AwayGoals(d), HomeGoals(d))
      ensures Tallies() == old(Tallies()) && opponent.Tallies() == old(opponent.Tallies())
    {
      var teamScore := Goals(d.homeAttack, d.awayDefense);
      var opponentScore := Goals(d.awayAttack, d.homeDefense);
      if !knockout {
        goalsFor := goalsFor + teamScore;
        goalsAgainst := goalsAgainst + opponentScore;
        opponent.goalsFor := opponent.goalsFor + opponentScore;
        opponent.goalsAgainst := opponent.goalsAgainst + teamScore;
        if teamScore > opponentScore {
          points := points + 3;
        } else if teamScore < opponentScore {
          opponent.points := opponent.points + 3;
        } else {
          points := points + 1;
          opponent.points := opponent.points + 1;
        }
        r := None;
      } else {
        if teamScore > opponentScore {
          r := Some(1);
        } else if teamScore < opponentScore {
          r := Some(0);
        } else {
          r := Some(d.coin);
        }
      }
    }

    /** Counts one more time reaching `round` (the knockout stage's `.quarter += 1`
        and its siblings); the group record is kept. */
    method Reach(round: Round)
      modifies this
      ensures Tallies() == Credits(old(Tallies()), round, 1)
      ensures Record() == old(Record())
    {
      match round
      case QuarterFinal => quarter := quarter + 1;
      case SemiFinal => semi := semi + 1;
      case Final => final := final + 1;
      case ThirdPlace => third := third + 1;
      case Cup => winner := winner + 1;
    }

    /** Clears the per-run group record; the tallies are kept. */
    method Reinitialize()
      modifies this
      ensures Record() == Fresh
      ensures Tallies() == old(Tallies())
    {
      points := 0;
      goalsFor := 0;
      goalsAgainst := 0;
    }
  }

  /** In a group match goals scored by one side are goals conceded by the other,
      so the two records' goal totals grow by the same amount. */
  lemma CreditConservesGoals(home: Scoring.Record, away: Scoring.Record, d: Draws)
    ensures var h, a := Credit(home, HomeGoals(d), AwayGoals(d)), Credit(away, AwayGoals(d), HomeGoals(d));
      && h.goalsFor - home.goalsFor == a.goalsAgainst - away.goalsAgainst
      && a.goalsFor - away.goalsFor == h.goalsAgainst - home.goalsAgainst
      && (h.points - home.points) + (a.points - away.points) in {2, 3}
  {
  }
}
