/** The group stage: a round robin over every unordered pair of a group, the
    resulting records, the ranking by (points, goal difference, goals for), and
    the placement tallies of the top two. */
module Groups {
  import opened Scoring
  import opened Teams
  import opened Lists

  // ---------------------------------------------------------------------------
  // The schedule: the order in which the nested loops visit the pairs

  /** Matches (i, j), (i, j + 1), ..., (i, n - 1): one pass of the inner loop. */
  function Row(i: nat, j: nat, n: nat): seq<(nat, nat)>
    decreases n - j
  {
    if j >= n then [] else [(i, j)] + Row(i, j + 1, n)
  }

  /** The matches the outer loop plays from row i on. */
  function Rows(i: nat, n: nat): seq<(nat, nat)>
    decreases n - i
  {
    if i >= n then [] else Row(i, i + 1, n) + Rows(i + 1, n)
  }

  /** Every match of a group of n teams, in the order they are played. */
  function Schedule(n: nat): seq<(nat, nat)> {
    Rows(0, n)
  }

  /** Every match pits an earlier position against a later one, both in range. */
  predicate Within(matches: seq<(nat, nat)>, n: nat) {
    forall m :: m in matches ==> m.0 < m.1 < n
  }

  lemma {:induction false} RowFacts(i: nat, j: nat, n: nat)
    requires j <= n
    ensures |Row(i, j, n)| == n - j
    ensures forall m :: m in Row(i, j, n) <==> m.0 == i && j <= m.1 < n
    ensures forall p :: 0 <= p < |Row(i, j, n)| ==> Row(i, j, n)[p] == (i, j + p)
    decreases n - j
  {
    if j < n {
      RowFacts(i, j + 1, n);
    }
  }

  lemma {:induction false} RowsLength(i: nat, n: nat)
    requires i <= n
    ensures 2 * |Rows(i, n)| == (n - i) * (n - i - 1)
    decreases n - i
  {
    if i < n {
      RowFacts(i, i + 1, n);
      RowsLength(i + 1, n);
      var m := n - i - 1;
      assert |Rows(i, n)| == m + |Rows(i + 1, n)|;
      assert 2 * |Rows(i + 1, n)| == m * (m - 1);
      assert (m + 1) * m == 2 * m + m * (m - 1);
    }
  }

  lemma {:induction false} RowsMembers(i: nat, n: nat)
    requires i <= n
    ensures forall m :: m in Rows(i, n) <==> i <= m.0 < m.1 < n
    decreases n - i
  {
    if i < n {
      RowFacts(i, i + 1, n);
      RowsMembers(i + 1, n);
    }
  }

  lemma {:induction false} RowsDistinct(i: nat, n: nat)
    requires i <= n
    ensures Distinct(Rows(i, n))
    decreases n - i
  {
    if i < n {
      RowFacts(i, i + 1, n);
      RowsMembers(i + 1, n);
      RowsDistinct(i + 1, n);
      var row, rest := Row(i, i + 1, n), Rows(i + 1, n);
      var all: seq<(nat, nat)> := row + rest;
      assert Rows(i, n) == all;
      forall p, q | 0 <= p < q < |all|
        ensures all[p] != all[q]
      {
        if q < |row| {
          assert all[p] == row[p] && all[q] == row[q];
        } else if p < |row| {
          assert all[p] == row[p] && all[q] == rest[q - |row|];
          assert rest[q - |row|] in rest;
        } else {
          assert all[p] == rest[p - |row|] && all[q] == rest[q - |row|];
        }
      }
    }
  }

  /** A group of n teams plays n(n-1)/2 matches, six for a group of four; every
      unordered pair of positions meets exactly once. */
  lemma ScheduleFacts(n: nat)
    ensures |Schedule(n)| == n * (n - 1) / 2
    ensures |Schedule(4)| == 6
    ensures forall i: nat, j: nat :: (i, j) in Schedule(n) <==> i < j < n
    ensures Distinct(Schedule(n))
    ensures Within(Schedule(n), n)
  {
    RowsLength(0, n);
    RowsLength(0, 4);
    RowsMembers(0, n);
    RowsDistinct(0, n);
  }

  // ---------------------------------------------------------------------------
  // Records of a round robin, by position in the group

  /** The records after positions i and j play with draws d, i the calling team. */
  function PlayMatch(recs: seq<Record>, i: nat, j: nat, d: Draws): (r: seq<Record>)
    requires i < j < |recs|
    ensures |r| == |recs|
  {
    recs[i := Credit(recs[i], HomeGoals(d), AwayGoals(d))][j := Credit(recs[j], AwayGoals(d), HomeGoals(d))]
  }

  /** The records after the first m matches are played in order, match p with
      draws[p]. A pair that is not two positions of the group (which the
      schedule never holds, see ScheduleFacts) changes nothing. */
  function Replay(recs: seq<Record>, matches: seq<(nat, nat)>, draws: seq<Draws>, m: nat): (r: seq<Record>)
    requires m <= |matches| && m <= |draws|
    ensures |r| == |recs|
  {
    if m == 0 then recs
    else
      var before := Replay(recs, matches, draws, m - 1);
      var (i, j) := matches[m - 1];
      if i < j < |before| then PlayMatch(before, i, j, draws[m - 1]) else before
  }

  function Zeros(n: nat): seq<Record> {
    seq(n, _ => Fresh)
  }

  /** The records of a group of n teams once every match of the round robin is played. */
  function RoundRobin(n: nat, draws: seq<Draws>): (r: seq<Record>)
    requires |draws| == |Schedule(n)|
    ensures |r| == n
  {
    Replay(Zeros(n), Schedule(n), draws, |draws|)
  }

  /** Component-wise sum of a list of records. */
  function Totals(recs: seq<Record>): Record {
    if recs == [] then Fresh
    else
      var t := Totals(recs[1..]);
      Record(recs[0].points + t.points, recs[0].goalsFor + t.goalsFor, recs[0].goalsAgainst + t.goalsAgainst)
  }

  /** Number of matches with a winner, and number of level matches, among the first m. */
  function Decided(draws: seq<Draws>, m: nat): nat
    requires m <= |draws|
  {
    if m == 0 then 0 else Decided(draws, m - 1) + Ind(HomeGoals(draws[m - 1]) != AwayGoals(draws[m - 1]))
  }

  function Level(draws: seq<Draws>, m: nat): nat
    requires m <= |draws|
  {
    if m == 0 then 0 else Level(draws, m - 1) + Ind(HomeGoals(draws[m - 1]) == AwayGoals(draws[m - 1]))
  }

  lemma {:induction false} TotalsUpdate(recs: seq<Record>, i: nat, x: Record)
    requires i < |recs|
    ensures Totals(recs[i := x]).points == Totals(recs).points - recs[i].points + x.points
    ensures Totals(recs[i := x]).goalsFor == Totals(recs).goalsFor - recs[i].goalsFor + x.goalsFor
    ensures Totals(recs[i := x]).goalsAgainst == Totals(recs).goalsAgainst - recs[i].goalsAgainst + x.goalsAgainst
    decreases |recs|
  {
    if i > 0 {
      TotalsUpdate(recs[1..], i - 1, x);
      assert recs[i := x][1..] == recs[1..][i - 1 := x];
    } else {
      assert recs[i := x][1..] == recs[1..];
    }
  }

  lemma {:induction false} TotalsOfFresh(recs: seq<Record>)
    requires forall p :: 0 <= p < |recs| ==> recs[p] == Fresh
    ensures Totals(recs) == Fresh
  {
    if recs != [] {
      TotalsOfFresh(recs[1..]);
    }
  }

  /** One group match moves as many goals into "for" as into "against", and
      hands out 3 points when decided and 2 when level. */
  lemma PlayMatchTotals(recs: seq<Record>, i: nat, j: nat, d: Draws)
    requires i < j < |recs|
    ensures var t, t' := Totals(recs), Totals(PlayMatch(recs, i, j, d));
      && t'.goalsFor - t.goalsFor == t'.goalsAgainst - t.goalsAgainst
      && t'.points == t.points + (if HomeGoals(d) == AwayGoals(d) then 2 else 3)
  {
    var home, away := HomeGoals(d), AwayGoals(d);
    var mid := recs[i := Credit(recs[i], home, away)];
    TotalsUpdate(recs, i, Credit(recs[i], home, away));
    TotalsUpdate(mid, j, Credit(recs[j], away, home));
    assert mid[j] == recs[j];
    MatchPoints(home, away);
  }

  /** Over any sequence of matches between two positions of the group, goals
      scored and goals conceded grow by the same amount, and the points handed
      out are 3 per decided match and 2 per level one. */
  lemma {:induction false} ReplayTotals(recs: seq<Record>, matches: seq<(nat, nat)>, draws: seq<Draws>, m: nat)
    requires m <= |matches| && m <= |draws|
    requires Within(matches, |recs|)
    ensures var t, t' := Totals(recs), Totals(Replay(recs, matches, draws, m));
      && t'.goalsFor - t.goalsFor == t'.goalsAgainst - t.goalsAgainst
      && t'.points == t.points + 3 * Decided(draws, m) + 2 * Level(draws, m)
  {
    if m > 0 {
      ReplayTotals(recs, matches, draws, m - 1);
      assert matches[m - 1] in matches;
      PlayMatchTotals(Replay(recs, matches, draws, m - 1), matches[m - 1].0, matches[m - 1].1, draws[m - 1]);
    }
  }

  /** Group-stage bookkeeping: across the group goals for equal goals against,
      and the points total is 3 per decided match plus 2 per drawn match, the
      matches being those of the schedule. */
  lemma GroupTotals(n: nat, draws: seq<Draws>)
    requires |draws| == |Schedule(n)|
    ensures Totals(RoundRobin(n, draws)).goalsFor == Totals(RoundRobin(n, draws)).goalsAgainst
    ensures Totals(RoundRobin(n, draws)).points == 3 * Decided(draws, |draws|) + 2 * Level(draws, |draws|)
    ensures Decided(draws, |draws|) + Level(draws, |draws|) == |Schedule(n)|
  {
    RowsMembers(0, n);
    TotalsOfFresh(Zeros(n));
    ReplayTotals(Zeros(n), Schedule(n), draws, |draws|);
    DecidedPlusLevel(draws, |draws|);
  }

  lemma {:induction false} DecidedPlusLevel(draws: seq<Draws>, m: nat)
    requires m <= |draws|
    ensures Decided(draws, m) + Level(draws, m) == m
  {
    if m > 0 {
      DecidedPlusLevel(draws, m - 1);
    }
  }

  // ---------------------------------------------------------------------------
  // Ranking

  /** The sort key of the group stage: (points, goals_for - goals_against, goals_for). */
  datatype Standing = Standing(points: int, goalDifference: int, goalsFor: int)

  /** Lexicographic order on standings, as Python compares tuples. */
  predicate AtMost(a: Standing, b: Standing) {
    || a.points < b.points
    || (a.points == b.points && a.goalDifference < b.goalDifference)
    || (a.points == b.points && a.goalDifference == b.goalDifference && a.goalsFor <= b.goalsFor)
  }

  function StandingOf(t: Team): Standing
    reads t`points, t`goalsFor, t`goalsAgainst
  {
    Standing(t.points, t.goalsFor - t.goalsAgainst, t.goalsFor)
  }

  /** The current standing of every team of the list. */
  function StandingsOf(s: seq<Team>): map<Team, Standing>
    reads s`points, s`goalsFor, s`goalsAgainst
  {
    map t | t in s :: StandingOf(t)
  }

  /** The group records of a list of teams, position by position. */
  function Records(s: seq<Team>): (r: seq<Record>)
    reads s`points, s`goalsFor, s`goalsAgainst
    ensures |r| == |s|
  {
    if s == [] then [] else [s[0].Record()] + Records(s[1..])
  }

  /** Position p of the records is the record of the team at position p. */
  lemma {:induction false} RecordsAt(s: seq<Team>)
    ensures forall p :: 0 <= p < |s| ==> Records(s)[p] == s[p].Record()
  {
    if s != [] {
      RecordsAt(s[1..]);
      forall p | 0 < p < |s|
        ensures Records(s)[p] == s[p].Record()
      {
        assert Records(s)[p] == Records(s[1..])[p - 1];
      }
    }
  }

  predicate Keyed<T(==)>(s: seq<T>, key: map<T, Standing>) {
    forall x :: x in s ==> x in key
  }

  /** Ascending by key. */
  predicate Ascending<T(==)>(s: seq<T>, key: map<T, Standing>)
    requires Keyed(s, key)
  {
    forall p, q :: 0 <= p < q < |s| ==> AtMost(key[s[p]], key[s[q]])
  }

  /** Inserts x before the first element whose key is not below x's. */
  function Insert<T(==)>(x: T, s: seq<T>, key: map<T, Standing>): (r: seq<T>)
    requires x in key && Keyed(s, key)
    ensures multiset(r) == multiset(s) + multiset{x}
    ensures Keyed(r, key)
  {
    if s == [] || AtMost(key[x], key[s[0]]) then [x] + s
    else
      var rest := Insert(x, s[1..], key);
      assert s == [s[0]] + s[1..];
      assert forall y :: y in rest ==> y in multiset(rest);
      [s[0]] + rest
  }

  lemma AtMostTransitive(a: Standing, b: Standing, c: Standing)
    requires AtMost(a, b) && AtMost(b, c)
    ensures AtMost(a, c)
  {
  }

  /** Putting in front an element whose key is at most the first one keeps the list ascending. */
  lemma PrependAscending<T>(x: T, s: seq<T>, key: map<T, Standing>)
    requires x in key && Keyed(s, key) && Ascending(s, key)
    requires s == [] || AtMost(key[x], key[s[0]])
    ensures Ascending([x] + s, key)
  {
    var r := [x] + s;
    forall p, q | 0 <= p < q < |r|
      ensures AtMost(key[r[p]], key[r[q]])
    {
      if p == 0 && q > 1 {
        AtMostTransitive(key[x], key[s[0]], key[s[q - 1]]);
      }
    }
  }

  /** Putting in front an element whose key is at most every key of the list keeps it ascending. */
  lemma PrependBelowAll<T>(x: T, s: seq<T>, key: map<T, Standing>)
    requires x in key && Keyed(s, key) && Ascending(s, key)
    requires forall y :: y in s ==> AtMost(key[x], key[y])
    ensures Ascending([x] + s, key)
  {
    var r := [x] + s;
    forall p, q | 0 <= p < q < |r|
      ensures AtMost(key[r[p]], key[r[q]])
    {
      if p == 0 {
        assert r[q] in s;
      } else {
        assert r[p] == s[p - 1] && r[q] == s[q - 1];
      }
    }
  }

  lemma {:induction false} InsertAscending<T>(x: T, s: seq<T>, key: map<T, Standing>)
    requires x in key && Keyed(s, key) && Ascending(s, key)
    ensures Ascending(Insert(x, s, key), key)
    decreases |s|
  {
    if s == [] || AtMost(key[x], key[s[0]]) {
      PrependAscending(x, s, key);
    } else {
      var rest := Insert(x, s[1..], key);
      InsertAscending(x, s[1..], key);
      forall y | y in rest
        ensures AtMost(key[s[0]], key[y])
      {
        assert y in multiset(rest);
        if y != x {
          assert y in s[1..];
          var idx :| 0 <= idx < |s[1..]| && s[1..][idx] == y;
          assert s[idx + 1] == y;
        }
      }
      PrependBelowAll(s[0], rest, key);
    }
  }

  /** A stable sort ascending by key: Python's list.sort(key=...). */
  function StableSort<T(==)>(s: seq<T>, key: map<T, Standing>): (r: seq<T>)
    requires Keyed(s, key)
    ensures |r| == |s|
    ensures multiset(r) == multiset(s)
    ensures Keyed(r, key)
    ensures Ascending(r, key)
  {
    if s == [] then []
    else
      var rest := StableSort(s[1..], key);
      InsertAscending(s[0], rest, key);
      assert s == [s[0]] + s[1..];
      var r := Insert(s[0], rest, key);
      assert |r| == |multiset(r)|;
      r
  }

  /** The elements of s whose key is k, in order. */
  function WithKey<T(==)>(s: seq<T>, key: map<T, Standing>, k: Standing): seq<T>
    requires Keyed(s, key)
  {
    if s == [] then []
    else (if key[s[0]] == k then [s[0]] else []) + WithKey(s[1..], key, k)
  }

  lemma {:induction false} WithKeyAppend<T>(a: seq<T>, b: seq<T>, key: map<T, Standing>, k: Standing)
    requires Keyed(a, key) && Keyed(b, key)
    ensures WithKey(a + b, key, k) == WithKey(a, key, k) + WithKey(b, key, k)
    decreases |a|
  {
    if a != [] {
      assert (a + b)[1..] == a[1..] + b;
      WithKeyAppend(a[1..], b, key, k);
    } else {
      assert a + b == b;
    }
  }

  lemma {:induction false} InsertWithKey<T>(x: T, s: seq<T>, key: map<T, Standing>, k: Standing)
    requires x in key && Keyed(s, key)
    requires Ascending(s, key)
    ensures WithKey(Insert(x, s, key), key, k) == WithKey([x] + s, key, k)
    decreases |s|
  {
    if s == [] || AtMost(key[x], key[s[0]]) {
    } else {
      var rest := Insert(x, s[1..], key);
      InsertWithKey(x, s[1..], key, k);
      assert ([s[0]] + rest)[1..] == rest;
      assert ([x] + s[1..])[1..] == s[1..];
      assert ([x] + s)[1..] == s;
      assert s[1..] == s[1..];
      assert key[s[0]] != key[x];
    }
  }

  /** The sort is stable: the teams sharing any one standing keep their order. */
  lemma {:induction false} StableSortKeepsTies<T>(s: seq<T>, key: map<T, Standing>, k: Standing)
    requires Keyed(s, key)
    ensures WithKey(StableSort(s, key), key, k) == WithKey(s, key, k)
  {
    if s != [] {
      var rest := StableSort(s[1..], key);
      StableSortKeepsTies(s[1..], key, k);
      InsertWithKey(s[0], rest, key, k);
      assert ([s[0]] + rest)[1..] == rest;
    }
  }

  /** The sorted group holds the same teams, so it is still free of repeats,
      and every team of it was in the group before. */
  lemma SortedFacts<T>(teams: seq<T>, key: map<T, Standing>, sorted: seq<T>)
    requires Distinct(teams)
    requires Keyed(teams, key)
    requires sorted == StableSort(teams, key)
    ensures Distinct(sorted)
    ensures forall t :: t in sorted <==> t in teams
  {
    assert multiset(sorted) == multiset(teams);
    forall t
      ensures t in sorted <==> t in teams
    {
      assert t in sorted <==> t in multiset(sorted);
      assert t in teams <==> t in multiset(teams);
    }
    DistinctMultiset(teams, sorted);
  }

  // ---------------------------------------------------------------------------
  // The group stage itself

  /** Every team of the group back to a fresh record (the reset loop of the group stage). */
  method ResetGroup(group: array<Team>)
    requires Distinct(group[..])
    modifies group[..]
    ensures Records(group[..]) == Zeros(group.Length)
    ensures forall t :: t in group[..] ==> t.Tallies() == old(t.Tallies())
  {
    var i := 0;
    while i < group.Length
      invariant 0 <= i <= group.Length
      invariant forall p :: 0 <= p < i ==> group[p].Record() == Fresh
      invariant forall t :: t in group[..] ==> t.Tallies() == old(t.Tallies())
    {
      group[i].Reinitialize();
      i := i + 1;
    }
    RecordsAt(group[..]);
  }

  /** One group match between positions i and j, position i the calling team. */
  method PlayPair(group: array<Team>, i: nat, j: nat, d: Draws)
    requires i < j < group.Length
    requires Distinct(group[..])
    modifies group[i], group[j]
    ensures Records(group[..]) == PlayMatch(old(Records(group[..])), i, j, d)
    ensures forall t :: t in group[..] ==> t.Tallies() == old(t.Tallies())
  {
    RecordsAt(group[..]);
    ghost var before := Records(group[..]);
    var _ := group[i].Play(group[j], false, d);
    RecordsAt(group[..]);
    forall p | 0 <= p < group.Length
      ensures Records(group[..])[p] == PlayMatch(before, i, j, d)[p]
    {
      if p != i && p != j {
        assert group[p] != group[i] && group[p] != group[j];
      }
    }
  }

  /** Where row i sits in a list of matches that holds the rows from i on
      after position k: its matches are (i, i + 1), ..., (i, n - 1), and the
      rows from i + 1 on follow. */
  lemma RowAt(matches: seq<(nat, nat)>, k: nat, i: nat, n: nat)
    requires i < n && k <= |matches|
    requires matches[k..] == Rows(i, n)
    ensures k + (n - i - 1) <= |matches|
    ensures forall p :: k <= p < k + (n - i - 1) ==> matches[p] == (i, i + 1 + (p - k))
    ensures matches[k + (n - i - 1)..] == Rows(i + 1, n)
  {
    RowFacts(i, i + 1, n);
    var row := Row(i, i + 1, n);
    assert Rows(i, n) == row + Rows(i + 1, n);
    forall p | k <= p < k + (n - i - 1)
      ensures matches[p] == (i, i + 1 + (p - k))
    {
      assert matches[p] == matches[k..][p - k] == row[p - k];
    }
  }

  /** Every team's tallies at some point. */
  ghost function TallyMap(teams: seq<Team>): map<Team, Tally>
    reads teams
  {
    map t | t in teams :: t.Tallies()
  }

  /** The teams hold the given tallies. */
  ghost predicate TalliesAre(teams: seq<Team>, tallies: map<Team, Tally>)
    reads teams
  {
    forall t :: t in teams ==> t in tallies && t.Tallies() == tallies[t]
  }

  /** One iteration of the inner loop: after the first m matches, positions i
      and j play match m. */
  method PlayNext(group: array<Team>, i: nat, j: nat, m: nat,
                  ghost start: seq<Record>, ghost matches: seq<(nat, nat)>, draws: seq<Draws>,
                  ghost tallies: map<Team, Tally>)
    requires Distinct(group[..])
    requires i < j < group.Length == |start|
    requires m < |matches| && m < |draws| && matches[m] == (i, j)
    requires Records(group[..]) == Replay(start, matches, draws, m)
    requires TalliesAre(group[..], tallies)
    modifies group[i], group[j]
    ensures Records(group[..]) == Replay(start, matches, draws, m + 1)
    ensures TalliesAre(group[..], tallies)
  {
    PlayPair(group, i, j, draws[m]);
  }

  /** One pass of the inner loop: row i plays (i, i + 1), ..., (i, n - 1), as
      matches k, k + 1, ... of the list, and returns the position after them. */
  method PlayRow(group: array<Team>, i: nat, k: nat,
                 ghost start: seq<Record>, ghost matches: seq<(nat, nat)>, draws: seq<Draws>,
                 ghost tallies: map<Team, Tally>) returns (next: nat)
    requires Distinct(group[..])
    requires i < group.Length == |start|
    requires k + (group.Length - i - 1) <= |matches| <= |draws|
    requires forall p :: k <= p < k + (group.Length - i - 1) ==> matches[p] == (i, i + 1 + (p - k))
    requires Records(group[..]) == Replay(start, matches, draws, k)
    requires TalliesAre(group[..], tallies)
    modifies group[..]
    ensures next == k + (group.Length - i - 1)
    ensures Records(group[..]) == Replay(start, matches, draws, next)
    ensures TalliesAre(group[..], tallies)
  {
    var n := group.Length;
    var j: nat := i + 1;
    next := k;
    while j < n
      invariant i + 1 <= j <= n
      invariant next == k + (j - i - 1)
      invariant Records(group[..]) == Replay(start, matches, draws, next)
      invariant TalliesAre(group[..], tallies)
    {
      assert matches[next] == (i, j);
      PlayNext(group, i, j, next, start, matches, draws, tallies);
      next := next + 1;
      j := j + 1;
    }
  }

  /** Plays every unordered pair of the group once, in schedule order, the
      earlier position as the calling team (the nested loops of the group stage). */
  method PlayRoundRobin(group: array<Team>, draws: seq<Draws>)
    requires Distinct(group[..])
    requires |draws| == |Schedule(group.Length)|
    modifies group[..]
    ensures Records(group[..]) == Replay(old(Records(group[..])), Schedule(group.Length), draws, |draws|)
    ensures forall t :: t in group[..] ==> t.Tallies() == old(t.Tallies())
  {
    var n := group.Length;
    ghost var start := Records(group[..]);
    ghost var matches := Schedule(n);
    ghost var tallies := TallyMap(group[..]);
    var k: nat := 0;
    var i: nat := 0;
    while i < n
      invariant 0 <= i <= n && k <= |matches|
      invariant matches[k..] == Rows(i, n)
      invariant Records(group[..]) == Replay(start, matches, draws, k)
      invariant TalliesAre(group[..], tallies)
    {
      RowAt(matches, k, i, n);
      k := PlayRow(group, i, k, start, matches, draws, tallies);
      i := i + 1;
    }
    assert k == |draws|;
  }

  /** Reorders the group in place by ascending standing, ties keeping their
      order (the list.sort call of the group stage). The teams themselves are
      not touched. */
  method SortGroup(group: array<Team>, key: map<Team, Standing>)
    requires Keyed(group[..], key)
    modifies group
    ensures group[..] == StableSort(old(group[..]), key)
    ensures Records(old(group[..])) == old(Records(group[..]))
    ensures StandingsOf(old(group[..])) == old(StandingsOf(group[..]))
    ensures forall t :: t in old(group[..]) ==> t.Tallies() == old(t.Tallies())
  {
    ghost var teams := group[..];
    var sorted := StableSort(group[..], key);
    forall p | 0 <= p < group.Length {
      group[p] := sorted[p];
    }
    assert group[..] == sorted;
    TeamsUnchanged(teams);
  }

  /** Teams whose fields did not change keep their records, standings and tallies. */
  twostate lemma TeamsUnchanged(teams: seq<Team>)
    requires unchanged(teams)
    ensures Records(teams) == old(Records(teams))
    ensures StandingsOf(teams) == old(StandingsOf(teams))
    ensures forall t :: t in teams ==> t.Tallies() == old(t.Tallies())
  {
  }

  /** The last two places of the group are credited as group winner and
      runner-up; both reach the round of 16. Only tallies change, so the
      records and standings of any teams stay as they were. */
  method CreditTopTwo(group: array<Team>, ghost teams: seq<Team>)
    requires group.Length >= 2
    modifies group[group.Length - 1], group[group.Length - 2]
    ensures Records(teams) == old(Records(teams))
    ensures StandingsOf(teams) == old(StandingsOf(teams))
    ensures forall t :: t in teams || t in group[..] ==>
      t.Tallies() == Qualify(old(t.Tallies()), t == group[group.Length - 1], t == group[group.Length - 2])
  {
    var n := group.Length;
    RecordsAt(teams);
    group[n - 1].first := group[n - 1].first + 1;
    group[n - 2].second := group[n - 2].second + 1;
    group[n - 1].eighth := group[n - 1].eighth + 1;
    group[n - 2].eighth := group[n - 2].eighth + 1;
    RecordsAt(teams);
  }

  /** The first half of the group stage: every record back to zero, then the
      round robin. */
  method PlayGroup(group: array<Team>, draws: seq<Draws>)
    requires Distinct(group[..])
    requires |draws| == |Schedule(group.Length)|
    modifies group[..]
    ensures Records(group[..]) == RoundRobin(group.Length, draws)
    ensures forall t :: t in group[..] ==> t.Tallies() == old(t.Tallies())
  {
    ResetGroup(group);
    PlayRoundRobin(group, draws);
  }

  /** The second half of the group stage: the group sorted by standing, the
      top two credited. */
  method RankGroup(group: array<Team>)
    requires group.Length >= 2
    modifies group, group[..]
    ensures group[..] == StableSort(old(group[..]), StandingsOf(old(group[..])))
    ensures Records(old(group[..])) == old(Records(group[..]))
    ensures forall t :: t in old(group[..]) ==>
      t.Tallies() == Qualify(old(t.Tallies()), t == group[group.Length - 1], t == group[group.Length - 2])
  {
    ghost var teams := group[..];
    var key := StandingsOf(group[..]);
    SortGroup(group, key);
    assert group[group.Length - 1] in multiset(group[..]) && group[group.Length - 2] in multiset(group[..]);
    CreditTopTwo(group, teams);
  }

  /** Resets the group, plays its round robin with one Draws per match in
      schedule order, sorts the group in place by standing and credits the top
      two with their placement. Returns the same, now sorted, array. */
  method GroupStage(group: array<Team>, draws: seq<Draws>) returns (ranked: array<Team>)
    requires group.Length >= 2
    requires Distinct(group[..])
    requires |draws| == |Schedule(group.Length)|
    modifies group, group[..]
    ensures ranked == group
    ensures Records(old(group[..])) == RoundRobin(group.Length, draws)
    ensures group[..] == StableSort(old(group[..]), StandingsOf(old(group[..])))
    ensures forall t :: t in old(group[..]) ==>
      t.Tallies() == Qualify(old(t.Tallies()), t == group[group.Length - 1], t == group[group.Length - 2])
  {
    PlayGroup(group, draws);
    RankGroup(group);
    ranked := group;
  }
}
