/** The knockout stage: the round of 16 between group winners and runners-up,
    quarter-finals, semi-finals, the match for third place and the final. A
    knockout result depends only on that match's draws, so who reaches which
    round is a pure function of the sixteen results. `WireAsWritten` is the
    bracket the loops of the knockout stage build, whose second round-of-16
    loop sends the losers through; `Wire` is the bracket with every winner
    going through. The methods walk the loops and credit the teams' tallies
    along `WireAsWritten`. */
module Knockout {
  import opened Scoring
  import opened Teams
  import opened Lists

  /** A place in the final group tables: the team `offset` from the end of
      group `group` (-1 the group winner, -2 the runner-up). */
  datatype Slot = Slot(group: nat, offset: int)

  /** The first eight groups each hold at least two teams (the bracket reads
      their last two places); any further group takes no part. */
  predicate ValidGroups(groups: seq<seq<Team>>) {
    |groups| >= 8 && forall g :: 0 <= g < 8 ==> |groups[g]| >= 2
  }

  predicate Placed(s: Slot) {
    s.group < 8 && (s.offset == -1 || s.offset == -2)
  }

  predicate AllPlaced(slots: seq<Slot>) {
    forall p :: 0 <= p < |slots| ==> Placed(slots[p])
  }

  /** The team in a slot, Python's groups[g][offset]. */
  function TeamAt(groups: seq<seq<Team>>, s: Slot): Team
    requires ValidGroups(groups) && Placed(s)
  {
    groups[s.group][|groups[s.group]| + s.offset]
  }

  /** How many of the slots hold team t. */
  function Count(groups: seq<seq<Team>>, slots: seq<Slot>, t: Team): nat
    requires ValidGroups(groups) && AllPlaced(slots)
  {
    if slots == [] then 0
    else Count(groups, slots[..|slots| - 1], t) + Ind(TeamAt(groups, slots[|slots| - 1]) == t)
  }

  /** Counting is additive over concatenation. */
  lemma {:induction false} CountConcat(groups: seq<seq<Team>>, a: seq<Slot>, b: seq<Slot>, t: Team)
    requires ValidGroups(groups) && AllPlaced(a) && AllPlaced(b)
    ensures AllPlaced(a + b)
    ensures Count(groups, a + b, t) == Count(groups, a, t) + Count(groups, b, t)
    decreases |b|
  {
    if b != [] {
      var b' := b[..|b| - 1];
      assert (a + b)[..|a + b| - 1] == a + b';
      assert (a + b)[|a + b| - 1] == b[|b| - 1];
      CountConcat(groups, a, b', t);
      assert Count(groups, a + b, t) == Count(groups, a + b', t) + Ind(TeamAt(groups, b[|b| - 1]) == t);
    } else {
      assert a + b == a;
    }
  }

  /** Every team of every group. */
  function AllTeams(groups: seq<seq<Team>>): set<Team> {
    set g, p | 0 <= g < |groups| && 0 <= p < |groups[g]| :: groups[g][p]
  }

  // ---------------------------------------------------------------------------
  // The bracket

  /** The round-of-16 match k, calling side first: the first loop plays the
      winner of group 2k against the runner-up of group 2k + 1, the second loop
      the runner-up of group 2(k - 4) against the winner of the next group. */
  function Pairing(k: nat): (Slot, Slot)
    requires k < 8
  {
    if k < 4 then (Slot(2 * k, -1), Slot(2 * k + 1, -2))
    else (Slot(2 * (k - 4), -2), Slot(2 * (k - 4) + 1, -1))
  }

  /** The side that goes through when the calling side's result is r. */
  function Winner(home: Slot, away: Slot, r: Bit): Slot {
    if r == 1 then home else away
  }

  function Loser(home: Slot, away: Slot, r: Bit): Slot {
    if r == 1 then away else home
  }

  /** Who reached each round: the eight quarter-finalists, four semi-finalists
      and two finalists in the order the stage lists them, the two losing
      semi-finalists who meet for third place, and the two medal slots. */
  datatype Outcome = Outcome(
    quarter: seq<Slot>, semi: seq<Slot>, final: seq<Slot>, playoff: seq<Slot>,
    third: Slot, winner: Slot)

  /** The result of every match from the calling side's point of view. */
  function Results(draws: seq<Draws>): (r: seq<Bit>)
    ensures |r| == |draws|
    ensures forall m :: 0 <= m < |draws| ==> r[m] == KnockoutResult(draws[m])
  {
    seq(|draws|, m requires 0 <= m < |draws| => KnockoutResult(draws[m]))
  }

  /** The bracket from the quarter-finals on; results 8 to 11 are the
      quarter-finals, 12 and 13 the semi-finals, 14 the match for third place
      and 15 the final. */
  function FromQuarter(quarter: seq<Slot>, results: seq<Bit>): (o: Outcome)
    requires |quarter| == 8 && |results| == 16
    ensures o.quarter == quarter
    ensures |o.semi| == 4 && |o.final| == 2 && |o.playoff| == 2
    ensures AllPlaced(quarter) ==>
      AllPlaced(o.semi) && AllPlaced(o.final) && AllPlaced(o.playoff) && Placed(o.third) && Placed(o.winner)
  {
    var semi := [Winner(quarter[0], quarter[1], results[8]), Winner(quarter[2], quarter[3], results[9]),
                 Winner(quarter[4], quarter[5], results[10]), Winner(quarter[6], quarter[7], results[11])];
    var final1, ranking1 := Winner(semi[0], semi[1], results[12]), Loser(semi[0], semi[1], results[12]);
    var final2, ranking2 := Winner(semi[2], semi[3], results[13]), Loser(semi[2], semi[3], results[13]);
    Outcome(quarter, semi, [final1, final2], [ranking1, ranking2],
            Winner(ranking1, ranking2, results[14]), Winner(final1, final2, results[15]))
  }

  /** The side of round-of-16 match k that reaches the quarter-finals. */
  function Advance(k: nat, r: Bit): (s: Slot)
    requires k < 8
    ensures Placed(s)
  {
    Winner(Pairing(k).0, Pairing(k).1, r)
  }

  /** The bracket with the winner of every round-of-16 match going through. */
  function Wire(results: seq<Bit>): (o: Outcome)
    requires |results| == 16
    ensures |o.quarter| == 8 && |o.semi| == 4 && |o.final| == 2 && |o.playoff| == 2
    ensures AllPlaced(o.quarter) && AllPlaced(o.semi) && AllPlaced(o.final) && AllPlaced(o.playoff)
    ensures Placed(o.third) && Placed(o.winner)
  {
    FromQuarter([Advance(0, results[0]), Advance(1, results[1]), Advance(2, results[2]), Advance(3, results[3]),
                 Advance(4, results[4]), Advance(5, results[5]), Advance(6, results[6]), Advance(7, results[7])],
                results)
  }

  /** The side of round-of-16 match k that the knockout stage's loops send to
      the quarter-finals: the second loop keeps the calling side on a result of 0,
      which Team.play returns when the calling side lost. */
  function AdvanceAsWritten(k: nat, r: Bit): (s: Slot)
    requires k < 8
    ensures Placed(s)
  {
    if k < 4 then Winner(Pairing(k).0, Pairing(k).1, r) else Loser(Pairing(k).0, Pairing(k).1, r)
  }

  /** The bracket as the knockout stage wires it, with the loser of each of the last
      four round-of-16 matches going through. */
  function WireAsWritten(results: seq<Bit>): (o: Outcome)
    requires |results| == 16
    ensures |o.quarter| == 8 && AllPlaced(o.quarter)
  {
    FromQuarter([AdvanceAsWritten(0, results[0]), AdvanceAsWritten(1, results[1]),
                 AdvanceAsWritten(2, results[2]), AdvanceAsWritten(3, results[3]),
                 AdvanceAsWritten(4, results[4]), AdvanceAsWritten(5, results[5]),
                 AdvanceAsWritten(6, results[6]), AdvanceAsWritten(7, results[7])], results)
  }

  // ---------------------------------------------------------------------------
  // Properties of the bracket

  /** The sixteen round-of-16 places, match by match, calling side first. */
  function Seeds(): (r: seq<Slot>)
    ensures |r| == 16 && AllPlaced(r)
    ensures forall k :: 0 <= k < 8 ==> r[2 * k] == Pairing(k).0 && r[2 * k + 1] == Pairing(k).1
  {
    [Pairing(0).0, Pairing(0).1, Pairing(1).0, Pairing(1).1, Pairing(2).0, Pairing(2).1, Pairing(3).0, Pairing(3).1,
     Pairing(4).0, Pairing(4).1, Pairing(5).0, Pairing(5).1, Pairing(6).0, Pairing(6).1, Pairing(7).0, Pairing(7).1]
  }

  /** Where a place plays in the round of 16: its index in Seeds(). */
  function SeedIndex(s: Slot): nat {
    s.group + if (s.group % 2 == 0) == (s.offset == -1) then 0 else 8
  }

  /** The round of 16 takes the top two of each of the first eight groups,
      each exactly once. */
  lemma SeedIndexOfSeed(k: nat)
    requires k < 8
    ensures SeedIndex(Seeds()[2 * k]) == 2 * k && SeedIndex(Seeds()[2 * k + 1]) == 2 * k + 1
  {
  }

  lemma SeedAtIndex(s: Slot)
    requires Placed(s)
    ensures SeedIndex(s) < 16 && Seeds()[SeedIndex(s)] == s
  {
    var k := if s.group % 2 == 0 then s.group / 2 else (s.group - 1) / 2;
    assert s.group == 2 * k || s.group == 2 * k + 1;
  }

  lemma SeedsCover()
    ensures forall s :: Placed(s) <==> s in Seeds()
    ensures Distinct(Seeds())
  {
    var seeds := Seeds();
    forall p | 0 <= p < 16
      ensures SeedIndex(seeds[p]) == p
    {
      var k := p / 2;
      assert p == 2 * k || p == 2 * k + 1;
      SeedIndexOfSeed(k);
    }
    forall s | Placed(s)
      ensures s in seeds
    {
      SeedAtIndex(s);
    }
  }

  /** The shape every bracket from the quarter-finals on has: each
      semi-finalist won one quarter-final, each semi-final sends one side to
      the final and the other to the match for third place, third place goes
      to a semi-final loser and the cup to a finalist. */
  predicate Bracket(o: Outcome) {
    && |o.quarter| == 8 && |o.semi| == 4 && |o.final| == 2 && |o.playoff| == 2
    && AllPlaced(o.quarter) && AllPlaced(o.semi) && AllPlaced(o.final) && AllPlaced(o.playoff)
    && Placed(o.third) && Placed(o.winner)
    && (forall k :: 0 <= k < 4 ==> o.semi[k] == o.quarter[2 * k] || o.semi[k] == o.quarter[2 * k + 1])
    && (forall i :: 0 <= i < 2 ==>
          (o.final[i], o.playoff[i]) == (o.semi[2 * i], o.semi[2 * i + 1]) ||
          (o.final[i], o.playoff[i]) == (o.semi[2 * i + 1], o.semi[2 * i]))
    && (o.third == o.playoff[0] || o.third == o.playoff[1])
    && (o.winner == o.final[0] || o.winner == o.final[1])
  }

  lemma FromQuarterBracket(quarter: seq<Slot>, results: seq<Bit>)
    requires |quarter| == 8 && |results| == 16 && AllPlaced(quarter)
    ensures Bracket(FromQuarter(quarter, results))
  {
  }

  /** Both wirings are brackets, each sending one side of every round-of-16
      match through. */
  lemma WireRounds(results: seq<Bit>)
    requires |results| == 16
    ensures Bracket(Wire(results)) && Bracket(WireAsWritten(results))
    ensures forall k :: 0 <= k < 8 ==>
      Wire(results).quarter[k] == Seeds()[2 * k] || Wire(results).quarter[k] == Seeds()[2 * k + 1]
    ensures forall k :: 0 <= k < 8 ==>
      WireAsWritten(results).quarter[k] == Seeds()[2 * k] || WireAsWritten(results).quarter[k] == Seeds()[2 * k + 1]
  {
    FromQuarterBracket(Wire(results).quarter, results);
    FromQuarterBracket(WireAsWritten(results).quarter, results);
  }

  /** Choosing one place from each consecutive pair never counts a team more
      often than the pairs do. */
  lemma {:induction false} PickOneOfEachPair(groups: seq<seq<Team>>, a: seq<Slot>, b: seq<Slot>, t: Team)
    requires ValidGroups(groups) && AllPlaced(a) && AllPlaced(b) && |a| == 2 * |b|
    requires forall k :: 0 <= k < |b| ==> b[k] == a[2 * k] || b[k] == a[2 * k + 1]
    ensures Count(groups, b, t) <= Count(groups, a, t)
    decreases |b|
  {
    if b != [] {
      var n := |b|;
      var a', b' := a[..2 * n - 2], b[..n - 1];
      PickOneOfEachPair(groups, a', b', t);
      assert a[..2 * n - 1][..2 * n - 2] == a';
    }
  }

  /** Within a bracket each round's teams are among the previous round's:
      counted for any team, semi-finals at most quarter-finals, finals plus
      third place at most semi-finals, cup at most finals. */
  lemma BracketNests(groups: seq<seq<Team>>, o: Outcome, t: Team)
    requires ValidGroups(groups) && Bracket(o)
    ensures Count(groups, o.semi, t) <= Count(groups, o.quarter, t)
    ensures Count(groups, o.final, t) + Count(groups, [o.third], t) <= Count(groups, o.semi, t)
    ensures Count(groups, [o.winner], t) <= Count(groups, o.final, t)
  {
    PickOneOfEachPair(groups, o.quarter, o.semi, t);
    var s := o.semi;
    assert s == [s[0], s[1]] + [s[2], s[3]];
    CountConcat(groups, [s[0], s[1]], [s[2], s[3]], t);
    CountPair(groups, s[0], s[1], t);
    CountPair(groups, s[2], s[3], t);
    assert o.final == [o.final[0], o.final[1]] && o.playoff == [o.playoff[0], o.playoff[1]];
    CountPair(groups, o.final[0], o.final[1], t);
    CountPair(groups, o.playoff[0], o.playoff[1], t);
    assert [o.third][..0] == [] && [o.winner][..0] == [];
  }

  lemma CountPair(groups: seq<seq<Team>>, x: Slot, y: Slot, t: Team)
    requires ValidGroups(groups) && Placed(x) && Placed(y)
    ensures Count(groups, [x, y], t) == Ind(TeamAt(groups, x) == t) + Ind(TeamAt(groups, y) == t)
  {
    assert [x, y][..1] == [x] && [x][..0] == [];
    assert Count(groups, [x], t) == Ind(TeamAt(groups, x) == t);
  }

  /** Counted for team t, each round of the bracket is within the previous
      one, from the round-of-16 places on. */
  predicate Nests(groups: seq<seq<Team>>, o: Outcome, t: Team)
    requires ValidGroups(groups) && Bracket(o)
  {
    && Count(groups, o.quarter, t) <= Count(groups, Seeds(), t)
    && Count(groups, o.semi, t) <= Count(groups, o.quarter, t)
    && Count(groups, o.final, t) + Count(groups, [o.third], t) <= Count(groups, o.semi, t)
    && Count(groups, [o.winner], t) <= Count(groups, o.final, t)
  }

  /** Both wirings nest from the round of 16 on: a team reaches the
      quarter-finals at most as often as it holds a round-of-16 place, and each
      later round at most as often as the one before. */
  lemma WireNests(groups: seq<seq<Team>>, results: seq<Bit>, t: Team)
    requires ValidGroups(groups) && |results| == 16
    ensures Bracket(Wire(results)) && Nests(groups, Wire(results), t)
    ensures Bracket(WireAsWritten(results)) && Nests(groups, WireAsWritten(results), t)
  {
    WireRounds(results);
    PickOneOfEachPair(groups, Seeds(), Wire(results).quarter, t);
    BracketNests(groups, Wire(results), t);
    PickOneOfEachPair(groups, Seeds(), WireAsWritten(results).quarter, t);
    BracketNests(groups, WireAsWritten(results), t);
  }

  /** In the corrected bracket the side that wins a round-of-16 match, and
      only that side, reaches the quarter-finals; a side that outscores its
      opponent always does. */
  lemma WinnersAdvance(draws: seq<Draws>, k: nat)
    requires |draws| == 16 && k < 8
    ensures var q := Wire(Results(draws)).quarter[k];
      && (q == Pairing(k).0 <==> KnockoutResult(draws[k]) == 1)
      && (q == Pairing(k).1 <==> KnockoutResult(draws[k]) == 0)
      && (HomeGoals(draws[k]) > AwayGoals(draws[k]) ==> q == Pairing(k).0)
      && (HomeGoals(draws[k]) < AwayGoals(draws[k]) ==> q == Pairing(k).1)
  {
    WireQuarter(Results(draws));
  }

  /** As the knockout stage wires it, each of the last four round-of-16 matches sends
      its loser through: when the calling side outscores its opponent, the
      opponent reaches the quarter-finals. */
  lemma LosersAdvanceAsWritten(draws: seq<Draws>, k: nat)
    requires |draws| == 16 && 4 <= k < 8
    ensures var q := WireAsWritten(Results(draws)).quarter[k];
      && (q == Pairing(k).1 <==> KnockoutResult(draws[k]) == 1)
      && (HomeGoals(draws[k]) > AwayGoals(draws[k]) ==> q == Pairing(k).1)
      && (HomeGoals(draws[k]) < AwayGoals(draws[k]) ==> q == Pairing(k).0)
  {
    var results := Results(draws);
    assert WireAsWritten(results).quarter[k] == AdvanceAsWritten(k, results[k]);
  }

  /** Every match won by the calling side, as with a `play` that always
      returns 1: as the knockout stage wires it, the quarter-finalists are the winners
      of groups 0, 2, 4, 6 and then 1, 3, 5, 7, the semi-finalists the winners
      of groups 0, 4, 1 and 5, the cup goes to group 0's winner and third
      place to group 4's. */
  lemma AllOnesAsWritten()
    ensures var o := WireAsWritten(seq(16, _ => 1));
      && o.quarter == [Slot(0, -1), Slot(2, -1), Slot(4, -1), Slot(6, -1), Slot(1, -1), Slot(3, -1), Slot(5, -1), Slot(7, -1)]
      && o.semi == [Slot(0, -1), Slot(4, -1), Slot(1, -1), Slot(5, -1)]
      && o.final == [Slot(0, -1), Slot(1, -1)]
      && o.third == Slot(4, -1) && o.winner == Slot(0, -1)
  {
  }

  /** The same results in the corrected bracket: the runners-up of groups 0,
      2, 4 and 6 go through instead of the winners of groups 1, 3, 5 and 7. */
  lemma AllOnes()
    ensures var o := Wire(seq(16, _ => 1));
      && o.quarter == [Slot(0, -1), Slot(2, -1), Slot(4, -1), Slot(6, -1), Slot(0, -2), Slot(2, -2), Slot(4, -2), Slot(6, -2)]
      && o.semi == [Slot(0, -1), Slot(4, -1), Slot(0, -2), Slot(4, -2)]
      && o.final == [Slot(0, -1), Slot(0, -2)]
      && o.third == Slot(4, -1) && o.winner == Slot(0, -1)
  {
  }

  // ---------------------------------------------------------------------------
  // The knockout stage

  lemma TeamAtIn(groups: seq<seq<Team>>, s: Slot)
    requires ValidGroups(groups) && Placed(s)
    ensures TeamAt(groups, s) in AllTeams(groups)
  {
    var g := s.group;
    var p := |groups[g]| + s.offset;
    assert 0 <= g < |groups| && 0 <= p < |groups[g]|;
  }

  /** What every team holds at some point: its tallies and its group record. */
  ghost function Snapshot(groups: seq<seq<Team>>): map<Team, (Tally, Scoring.Record)>
    reads AllTeams(groups)
  {
    map t | t in AllTeams(groups) :: (t.Tallies(), t.Record())
  }

  /** The places credited so far with reaching each knockout round. */
  datatype Ledger = Ledger(quarter: seq<Slot>, semi: seq<Slot>, final: seq<Slot>, third: seq<Slot>, winner: seq<Slot>)

  predicate LedgerPlaced(l: Ledger) {
    AllPlaced(l.quarter) && AllPlaced(l.semi) && AllPlaced(l.final) && AllPlaced(l.third) && AllPlaced(l.winner)
  }

  const NoCredits := Ledger([], [], [], [], [])

  /** The ledger with place s credited once more with `round`. */
  function Add(l: Ledger, round: Round, s: Slot): Ledger {
    match round
    case QuarterFinal => l.(quarter := l.quarter + [s])
    case SemiFinal => l.(semi := l.semi + [s])
    case Final => l.(final := l.final + [s])
    case ThirdPlace => l.(third := l.third + [s])
    case Cup => l.(winner := l.winner + [s])
  }

  /** Tallies c grown by one for each place of the ledger that holds t. */
  function Credited(c: Tally, groups: seq<seq<Team>>, l: Ledger, t: Team): Tally
    requires ValidGroups(groups) && LedgerPlaced(l)
  {
    Promote(c, Count(groups, l.quarter, t), Count(groups, l.semi, t), Count(groups, l.final, t),
            Count(groups, l.third, t), Count(groups, l.winner, t))
  }

  /** Since the snapshot `start`, every team has kept its group record and its
      tallies have grown by one for each place of the ledger it holds. */
  ghost predicate Promoted(groups: seq<seq<Team>>, start: map<Team, (Tally, Scoring.Record)>, l: Ledger)
    requires ValidGroups(groups) && LedgerPlaced(l)
    reads AllTeams(groups)
  {
    forall t :: t in AllTeams(groups) ==>
      t in start && t.Tallies() == Credited(start[t].0, groups, l, t) && t.Record() == start[t].1
  }

  /** Appending a place counts its team once more. */
  lemma CountSnoc(groups: seq<seq<Team>>, slots: seq<Slot>, s: Slot)
    requires ValidGroups(groups) && AllPlaced(slots) && Placed(s)
    ensures AllPlaced(slots + [s])
    ensures forall t :: Count(groups, slots + [s], t) == Count(groups, slots, t) + Ind(TeamAt(groups, s) == t)
  {
    assert (slots + [s])[..|slots|] == slots;
  }

  /** Crediting a place for one round adds one to that round's count for its
      team, the other rounds' counts staying as they were. */
  lemma AddQuarterFinalCount(groups: seq<seq<Team>>, l: Ledger, s: Slot, c: Tally, t: Team)
    requires ValidGroups(groups) && LedgerPlaced(l) && Placed(s)
    ensures LedgerPlaced(Add(l, QuarterFinal, s))
    ensures Credited(c, groups, Add(l, QuarterFinal, s), t) == Credits(Credited(c, groups, l, t), QuarterFinal, Ind(TeamAt(groups, s) == t))
  {
    CountSnoc(groups, l.quarter, s);
  }

  lemma AddSemiFinalCount(groups: seq<seq<Team>>, l: Ledger, s: Slot, c: Tally, t: Team)
    requires ValidGroups(groups) && LedgerPlaced(l) && Placed(s)
    ensures LedgerPlaced(Add(l, SemiFinal, s))
    ensures Credited(c, groups, Add(l, SemiFinal, s), t) == Credits(Credited(c, groups, l, t), SemiFinal, Ind(TeamAt(groups, s) == t))
  {
    CountSnoc(groups, l.semi, s);
  }

  lemma AddFinalCount(groups: seq<seq<Team>>, l: Ledger, s: Slot, c: Tally, t: Team)
    requires ValidGroups(groups) && LedgerPlaced(l) && Placed(s)
    ensures LedgerPlaced(Add(l, Final, s))
    ensures Credited(c, groups, Add(l, Final, s), t) == Credits(Credited(c, groups, l, t), Final, Ind(TeamAt(groups, s) == t))
  {
    CountSnoc(groups, l.final, s);
  }

  lemma AddThirdPlaceCount(groups: seq<seq<Team>>, l: Ledger, s: Slot, c: Tally, t: Team)
    requires ValidGroups(groups) && LedgerPlaced(l) && Placed(s)
    ensures LedgerPlaced(Add(l, ThirdPlace, s))
    ensures Credited(c, groups, Add(l, ThirdPlace, s), t) == Credits(Credited(c, groups, l, t), ThirdPlace, Ind(TeamAt(groups, s) == t))
  {
    CountSnoc(groups, l.third, s);
  }

  lemma AddCupCount(groups: seq<seq<Team>>, l: Ledger, s: Slot, c: Tally, t: Team)
    requires ValidGroups(groups) && LedgerPlaced(l) && Placed(s)
    ensures LedgerPlaced(Add(l, Cup, s))
    ensures Credited(c, groups, Add(l, Cup, s), t) == Credits(Credited(c, groups, l, t), Cup, Ind(TeamAt(groups, s) == t))
  {
    CountSnoc(groups, l.winner, s);
  }

  lemma AddCount(groups: seq<seq<Team>>, l: Ledger, round: Round, s: Slot, c: Tally, t: Team)
    requires ValidGroups(groups) && LedgerPlaced(l) && Placed(s)
    ensures LedgerPlaced(Add(l, round, s))
    ensures Credited(c, groups, Add(l, round, s), t) == Credits(Credited(c, groups, l, t), round, Ind(TeamAt(groups, s) == t))
  {
    match round
    case QuarterFinal => AddQuarterFinalCount(groups, l, s, c, t);
    case SemiFinal => AddSemiFinalCount(groups, l, s, c, t);
    case Final => AddFinalCount(groups, l, s, c, t);
    case ThirdPlace => AddThirdPlaceCount(groups, l, s, c, t);
    case Cup => AddCupCount(groups, l, s, c, t);
  }

  lemma AddCounts(groups: seq<seq<Team>>, l: Ledger, round: Round, s: Slot)
    requires ValidGroups(groups) && LedgerPlaced(l) && Placed(s)
    ensures LedgerPlaced(Add(l, round, s))
    ensures forall c, t ::
      Credited(c, groups, Add(l, round, s), t) == Credits(Credited(c, groups, l, t), round, Ind(TeamAt(groups, s) == t))
  {
    forall c: Tally, t: Team
      ensures LedgerPlaced(Add(l, round, s))
      ensures Credited(c, groups, Add(l, round, s), t) == Credits(Credited(c, groups, l, t), round, Ind(TeamAt(groups, s) == t))
    {
      AddCount(groups, l, round, s, c, t);
    }
    if round == QuarterFinal { CountSnoc(groups, l.quarter, s); }
  }

  /** Counts `round` once more for the team in place `s`. */
  method Send(groups: seq<seq<Team>>, s: Slot, round: Round,
              ghost start: map<Team, (Tally, Scoring.Record)>, ghost l: Ledger)
    requires ValidGroups(groups) && Placed(s) && LedgerPlaced(l)
    requires Promoted(groups, start, l)
    modifies TeamAt(groups, s)
    ensures LedgerPlaced(Add(l, round, s)) && Promoted(groups, start, Add(l, round, s))
  {
    var u := TeamAt(groups, s);
    u.Reach(round);
    AddCounts(groups, l, round, s);
    forall t | t in AllTeams(groups)
      ensures t in start && t.Tallies() == Credited(start[t].0, groups, Add(l, round, s), t)
      ensures t.Record() == start[t].1
    {
      assert old(t.Tallies()) == Credited(start[t].0, groups, l, t);
      if t != u {
        assert Ind(u == t) == 0;
      }
    }
  }

  /** One knockout match between two places: the calling side goes through
      when `play` returns `keep` (1 in every round but the second round-of-16
      loop, which tests for 0), the other side otherwise, and the team going
      through has `round` counted once more. */
  method Decide(groups: seq<seq<Team>>, home: Slot, away: Slot, d: Draws, keep: Bit, round: Round,
                ghost start: map<Team, (Tally, Scoring.Record)>, ghost l: Ledger)
      returns (through: Slot, out: Slot)
    requires ValidGroups(groups) && Placed(home) && Placed(away) && LedgerPlaced(l)
    requires Promoted(groups, start, l)
    modifies AllTeams(groups)
    ensures through == (if KnockoutResult(d) == keep then home else away)
    ensures out == (if KnockoutResult(d) == keep then away else home)
    ensures LedgerPlaced(Add(l, round, through)) && Promoted(groups, start, Add(l, round, through))
  {
    TeamAtIn(groups, home);
    TeamAtIn(groups, away);
    var r := TeamAt(groups, home).Play(TeamAt(groups, away), true, d);
    if r.value == keep {
      through, out := home, away;
    } else {
      through, out := away, home;
    }
    TeamAtIn(groups, through);
    Send(groups, through, round, start, l);
  }

  lemma WireQuarter(results: seq<Bit>)
    requires |results| == 16
    ensures forall k :: 0 <= k < 8 ==> Wire(results).quarter[k] == Advance(k, results[k])
    ensures Wire(results) == FromQuarter(Wire(results).quarter, results)
  {
  }

  lemma WireQuarterAsWritten(results: seq<Bit>)
    requires |results| == 16
    ensures forall k :: 0 <= k < 8 ==> WireAsWritten(results).quarter[k] == AdvanceAsWritten(k, results[k])
    ensures WireAsWritten(results) == FromQuarter(WireAsWritten(results).quarter, results)
  {
  }

  lemma FromQuarterSemi(quarter: seq<Slot>, results: seq<Bit>)
    requires |quarter| == 8 && |results| == 16
    ensures forall k :: 0 <= k < 4 ==>
      FromQuarter(quarter, results).semi[k] == Winner(quarter[2 * k], quarter[2 * k + 1], results[8 + k])
  {
  }

  /** One of the two round-of-16 loops over pairs of groups (`half` 0 the
      first, 1 the second): plays its four matches in order and appends the
      side it sends through to the quarter-finalists, with its quarter-final
      counted. The first loop keeps the calling side on a result of 1, the
      second on a result of 0, so there the loser of the match goes through. */
  method RoundOf16Loop(groups: seq<seq<Team>>, draws: seq<Draws>, half: nat, before: seq<Slot>,
                       ghost start: map<Team, (Tally, Scoring.Record)>)
      returns (qualified: seq<Slot>)
    requires ValidGroups(groups) && |draws| == 16 && half < 2
    requires before == WireAsWritten(Results(draws)).quarter[..4 * half]
    requires Promoted(groups, start, NoCredits.(quarter := before))
    modifies AllTeams(groups)
    ensures qualified == WireAsWritten(Results(draws)).quarter[..4 * half + 4]
    ensures Promoted(groups, start, NoCredits.(quarter := qualified))
  {
    ghost var quarter := WireAsWritten(Results(draws)).quarter;
    WireQuarterAsWritten(Results(draws));
    var keep: Bit := 1 - half;
    qualified := before;
    var k := 0;
    while k < 4
      invariant 0 <= k <= 4
      invariant qualified == quarter[..4 * half + k]
      invariant Promoted(groups, start, NoCredits.(quarter := qualified))
    {
      var (home, away) := Pairing(4 * half + k);
      var through, out := Decide(groups, home, away, draws[4 * half + k], keep, QuarterFinal,
                                 start, NoCredits.(quarter := qualified));
      qualified := qualified + [through];
      k := k + 1;
    }
  }

  /** The round of 16: the quarter-finalists in the order the two loops list
      them, each with its quarter-final counted. */
  method RoundOf16(groups: seq<seq<Team>>, draws: seq<Draws>, ghost start: map<Team, (Tally, Scoring.Record)>)
      returns (qualified: seq<Slot>)
    requires ValidGroups(groups) && |draws| == 16
    requires Promoted(groups, start, NoCredits)
    modifies AllTeams(groups)
    ensures qualified == WireAsWritten(Results(draws)).quarter
    ensures Promoted(groups, start, NoCredits.(quarter := qualified))
  {
    assert NoCredits.(quarter := []) == NoCredits;
    qualified := RoundOf16Loop(groups, draws, 0, [], start);
    qualified := RoundOf16Loop(groups, draws, 1, qualified, start);
  }

  /** The quarter-finals: the winners of consecutive pairs of quarter-finalists,
      each with its semi-final counted. */
  method QuarterFinals(groups: seq<seq<Team>>, qualified: seq<Slot>, draws: seq<Draws>,
                       ghost start: map<Team, (Tally, Scoring.Record)>)
      returns (semi: seq<Slot>)
    requires ValidGroups(groups) && |draws| == 16 && |qualified| == 8 && AllPlaced(qualified)
    requires Promoted(groups, start, NoCredits.(quarter := qualified))
    modifies AllTeams(groups)
    ensures semi == FromQuarter(qualified, Results(draws)).semi
    ensures Promoted(groups, start, NoCredits.(quarter := qualified, semi := semi))
  {
    ghost var target := FromQuarter(qualified, Results(draws)).semi;
    FromQuarterSemi(qualified, Results(draws));
    semi := [];
    var k := 0;
    while k < 4
      invariant 0 <= k <= 4
      invariant semi == target[..k]
      invariant Promoted(groups, start, NoCredits.(quarter := qualified, semi := semi))
    {
      var through, out := Decide(groups, qualified[2 * k], qualified[2 * k + 1], draws[8 + k], 1, SemiFinal,
                                 start, NoCredits.(quarter := qualified, semi := semi));
      semi := semi + [through];
      k := k + 1;
    }
  }

  /** The places an outcome credits: every round's entrants, the third-place
      winner and the cup winner. */
  function Reached(o: Outcome): Ledger {
    Ledger(o.quarter, o.semi, o.final, [o.third], [o.winner])
  }

  /** The two semi-finals, the match for third place between their losers and
      the final between their winners, each with the round it reaches counted
      for the side going through. */
  method FinalRounds(groups: seq<seq<Team>>, quarter: seq<Slot>, semi: seq<Slot>, draws: seq<Draws>,
                     ghost start: map<Team, (Tally, Scoring.Record)>)
    requires ValidGroups(groups) && |draws| == 16 && |quarter| == 8 && AllPlaced(quarter)
    requires semi == FromQuarter(quarter, Results(draws)).semi
    requires Promoted(groups, start, NoCredits.(quarter := quarter, semi := semi))
    modifies AllTeams(groups)
    ensures Promoted(groups, start, Reached(FromQuarter(quarter, Results(draws))))
  {
    var l := NoCredits.(quarter := quarter, semi := semi);
    var finalist1, ranking1 := Decide(groups, semi[0], semi[1], draws[12], 1, Final, start, l);
    l := Add(l, Final, finalist1);
    var finalist2, ranking2 := Decide(groups, semi[2], semi[3], draws[13], 1, Final, start, l);
    l := Add(l, Final, finalist2);
    var third, fourth := Decide(groups, ranking1, ranking2, draws[14], 1, ThirdPlace, start, l);
    l := Add(l, ThirdPlace, third);
    var champion, runnerUp := Decide(groups, finalist1, finalist2, draws[15], 1, Cup, start, l);
    l := Add(l, Cup, champion);
    assert l == Reached(FromQuarter(quarter, Results(draws)));
  }

  /** The knockout stage: the round of 16, quarter-finals, semi-finals, the
      match for third place and the final. Every team keeps its group record
      and its tallies grow by how often it holds a place of each round of the
      bracket the sixteen results wire, the second round-of-16 loop sending
      its losers through. */
  method KnockoutStage(groups: seq<seq<Team>>, draws: seq<Draws>)
    requires ValidGroups(groups) && |draws| == 16
    modifies AllTeams(groups)
    ensures Promoted(groups, old(Snapshot(groups)), Reached(WireAsWritten(Results(draws))))
  {
    ghost var start := Snapshot(groups);
    var qualified := RoundOf16(groups, draws, start);
    var semi := QuarterFinals(groups, qualified, draws, start);
    WireQuarterAsWritten(Results(draws));
    FinalRounds(groups, qualified, semi, draws, start);
  }
}
