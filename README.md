# World Cup simulation: a verified model of the tournament engine

This project models the tournament engine of `simulation.py`, the `Team` class of a
Monte Carlo World Cup simulator. The engine has three parts:

- **the match resolver** `Team.play`. Each side scores its attack draw divided by one
  more than the opposing defense draw, rounded down. In group mode it credits goals and
  points to both teams. In knockout mode it returns 1 when the calling team wins, 0 when
  it loses, and a coin flip on a level score.
- **the group stage** (`groupStage` with `reinitialize`). It resets every team's record,
  plays a round robin over every unordered pair in list order, and sorts the group in
  place by `(points, goal difference, goals for)`. It then credits the last two places
  as group winner and runner-up.
- **the knockout stage** `knockoutStage`. It plays the round of 16 between the top two
  of eight groups, then the quarter-finals, semi-finals, third-place match and final.
  Places are tracked as `(group, offset)` slots, and each team's cross-run tallies are
  incremented for every round it reaches.

It also models the list helpers `flatten` and the driver's loop that cuts the team list
into groups of four.

Randomness is replaced by parameters. Every match takes a `Draws` record: the four
`randint` draws of the score and the coin used on a knockout tie. A group takes one
`Draws` per scheduled match and the knockout stage takes sixteen, in play order.

Layout:

- `scoring.dfy` (module `Scoring`): score arithmetic, knockout verdict, group points,
  per-run records.
- `team.dfy` (module `Teams`): the `Team` class, its tallies and its methods.
- `lists.dfy` (module `Lists`): `flatten`, chunking, distinctness.
- `groups.dfy` (module `Groups`): schedule, round-robin records, ranking, group-stage
  methods over an `array<Team>`.
- `knockout.dfy` (module `Knockout`): slots, the bracket as a pure function of the
  sixteen results, and the knockout-stage methods.

## Model

| member | source | states |
|---|---|---|
| Scoring.Goals | simulation.py:128-129 | a side's goals are the floor of attack draw over 1 + defense draw: never above the attack draw, bracketed by the two products, equal to the draw when the defense draw is 0 |
| Scoring.GoalsWithinAttack | simulation.py:128-129 | for draws within the ratings, each side scores between 0 and its own attack rating |
| Scoring.GoalsGrowWithAttack | simulation.py:128-129 | a larger attack draw never yields fewer goals |
| Scoring.GoalsShrinkWithDefense | simulation.py:128-129 | a larger opposing defense draw never yields more goals |
| Scoring.KnockoutResult | simulation.py:143-149 | the knockout verdict is 1 only if the calling side scored at least as many, 0 only if at most as many, and the coin on a level score |
| Scoring.KnockoutDecided | simulation.py:143-149 | a knockout verdict is always 0 or 1, 1 when the calling side outscores, 0 when it is outscored |
| Scoring.MatchPoints | simulation.py:136-142 | a group match hands out 3 points when decided and 2 when level; a side gets 3 exactly when it outscores and 0 exactly when outscored |
| Teams.Team.constructor | simulation.py:83-97 | a new team has the given name, group and ratings, a fresh record and all tallies at zero |
| Teams.Team.Play | simulation.py:106-149 | group mode credits both records with the score line and returns nothing, with a team meeting itself credited with both sides; knockout mode returns the verdict and changes nothing; no tally changes |
| Teams.Team.Reach | simulation.py:208 | counts one more time reaching a knockout round and keeps the group record |
| Teams.Team.Reinitialize | simulation.py:182-190 | the record becomes zero points and goals; tallies are kept |
| Teams.CreditConservesGoals | simulation.py:131-142 | in a group match one side's goals for grow as much as the other's goals against, and the points added total 2 or 3 |
| Lists.DistinctCount | simulation.py:169-173 | a list without repeats holds each team at most once |
| Lists.DistinctMultiset | simulation.py:175 | reordering a list without repeats leaves none |
| Lists.Flatten | simulation.py:345-354 | the nested loop returns the inner lists joined in order, with length the sum of their lengths |
| Lists.ConcatAppend | simulation.py:345-354 | joining a list prepended to a list of lists puts it in front |
| Lists.ChunksFlatten | simulation.py:362-363 | flattening the chunks gives back the list; every chunk is non-empty and at most `size` long |
| Lists.ChunksStep | simulation.py:362-363 | the first chunk from position i is the slice i to i + size, clamped at the end |
| Lists.Group | simulation.py:362-363 | the grouping loop returns exactly the chunks of the list |
| Lists.ChunksOfFour | simulation.py:362-363 | 4k teams make k groups of four, group g holding teams 4g to 4g + 3 |
| Lists.ConcatLength | simulation.py:345-354 | the flattened length is the sum of the inner lengths |
| Groups.RowFacts | simulation.py:172-173 | one pass of the inner loop plays (i, j), ..., (i, n - 1) in order |
| Groups.RowsLength | simulation.py:171-173 | the rows from i on hold (n - i)(n - i - 1)/2 matches |
| Groups.RowsMembers | simulation.py:171-173 | the rows from i on hold exactly the pairs i <= a < b < n |
| Groups.RowsDistinct | simulation.py:171-173 | no pair is played twice |
| Groups.ScheduleFacts | simulation.py:171-173 | n teams play n(n - 1)/2 matches, six for four teams, each unordered pair exactly once, always an earlier against a later position |
| Groups.PlayMatch | simulation.py:131-142 | a group match keeps the number of records |
| Groups.Replay | simulation.py:171-173 | replaying matches keeps the number of records |
| Groups.RoundRobin | simulation.py:169-173 | a round robin from fresh records yields one record per team |
| Groups.TotalsUpdate | simulation.py:131-142 | replacing one record changes the totals by the difference |
| Groups.TotalsOfFresh | simulation.py:169-170 | fresh records total zero |
| Groups.PlayMatchTotals | simulation.py:131-142 | one group match adds as many goals for as goals against, and 3 points when decided, 2 when level |
| Groups.ReplayTotals | simulation.py:171-173 | over any matches within the group, goals for and against grow equally and points grow by 3 per decided and 2 per level match |
| Groups.GroupTotals | simulation.py:169-173 | after the round robin total goals for equal total goals against, and total points are 3 per decided plus 2 per level match of the schedule |
| Groups.DecidedPlusLevel | simulation.py:136-142 | every match is either decided or level |
| Groups.Records | simulation.py:175 | one record per team |
| Groups.RecordsAt | simulation.py:175 | the record at each position is that team's record |
| Groups.Insert | simulation.py:175 | inserting adds exactly that element to the multiset |
| Groups.AtMostTransitive | simulation.py:175 | the tuple order on standings is transitive |
| Groups.PrependAscending | simulation.py:175 | an element no greater than the head keeps the list ascending in front |
| Groups.PrependBelowAll | simulation.py:175 | an element no greater than every element keeps the list ascending in front |
| Groups.InsertAscending | simulation.py:175 | inserting into an ascending list keeps it ascending |
| Groups.StableSort | simulation.py:175 | the sort result is a permutation of its input, ascending by (points, goal difference, goals for) |
| Groups.WithKeyAppend | simulation.py:175 | the teams with one standing, taken from a concatenation, are those of each part in order |
| Groups.InsertWithKey | simulation.py:175 | insertion keeps the relative order of equal standings |
| Groups.StableSortKeepsTies | simulation.py:175 | the sort is stable: teams with equal standing keep their order |
| Groups.SortedFacts | simulation.py:175 | the sorted group holds the same teams, still without repeats |
| Groups.ResetGroup | simulation.py:169-170 | every team of the group gets a fresh record; tallies are kept |
| Groups.PlayPair | simulation.py:173 | one group match updates the two records as PlayMatch says and no other |
| Groups.RowAt | simulation.py:171-173 | where a row of matches sits in the schedule |
| Groups.PlayNext | simulation.py:172-173 | one inner-loop iteration advances the replay by one match |
| Groups.PlayRow | simulation.py:172-173 | one inner-loop pass plays its row of matches in order |
| Groups.PlayRoundRobin | simulation.py:171-173 | the nested loops leave the records of the scheduled replay and keep the tallies |
| Groups.SortGroup | simulation.py:175 | the array becomes the stable sort of its old contents; no team changes |
| Groups.TeamsUnchanged | simulation.py:175 | teams whose fields are unchanged keep records, standings and tallies |
| Groups.CreditTopTwo | simulation.py:176-179 | the last place gets first and eighth, the one before it second and eighth, no other team of the group (or of any given list) has its tallies changed, and no record changes |
| Groups.PlayGroup | simulation.py:169-173 | reset then round robin leave the round-robin records from zero |
| Groups.RankGroup | simulation.py:175-179 | the group is stably sorted by standing and the new top two are credited |
| Groups.GroupStage | simulation.py:154-180 | the group's records are those of the round robin from zero, the array is its stably sorted permutation, the top two are credited, the same array is returned |
| Knockout.Results | simulation.py:205 | result m is the knockout verdict of match m |
| Knockout.FromQuarter | simulation.py:221-264 | the bracket from the quarter-finals keeps the quarter-finalists, has 4 semi-finalists, 2 finalists and 2 semi-final losers, all in group top-two places |
| Knockout.Advance | simulation.py:204-211 | a round-of-16 qualifier is a group top-two place |
| Knockout.Wire | simulation.py:203-264 | the corrected bracket has 8, 4, 2 and 2 places in its rounds, all group top-two places |
| Knockout.AdvanceAsWritten | simulation.py:212-219 | as written a round-of-16 qualifier is still a group top-two place |
| Knockout.WireAsWritten | simulation.py:203-264 | as written the quarter-finalists are 8 group top-two places |
| Knockout.Seeds | simulation.py:204-219 | the 16 round-of-16 places, two per match, are group top-two places |
| Knockout.SeedsCover | simulation.py:204-219 | the round of 16 takes the top two of each of the first eight groups, each exactly once |
| Knockout.CountConcat | simulation.py:207-211 | counting a team's places adds up over concatenation |
| Knockout.FromQuarterBracket | simulation.py:221-264 | each semi-finalist won its quarter-final, each semi-final sends one side to the final and the other to the third-place match, third goes to a semi-final loser and the cup to a finalist |
| Knockout.WireRounds | simulation.py:203-264 | both wirings are brackets, and in each of them quarter-finalist k is one side of round-of-16 match k |
| Knockout.PickOneOfEachPair | simulation.py:222-229 | taking one place of each pair never counts a team more than the pairs do |
| Knockout.BracketNests | simulation.py:221-264 | per team, semi-finals at most quarter-finals, finals plus third at most semi-finals, cup at most finals |
| Knockout.CountPair | simulation.py:232-251 | a two-place list counts each of its teams |
| Knockout.WireNests | simulation.py:203-264 | for the bracket as written and for the corrected one, per team: quarter-finals at most round-of-16 places, semi-finals at most quarter-finals, finals plus third at most semi-finals, cup at most finals |
| Knockout.WinnersAdvance | simulation.py:204-211 | in the corrected bracket the calling side reaches the quarter-finals exactly when it wins, the other side exactly when it loses, and an outscoring side always goes through |
| Knockout.LosersAdvanceAsWritten | simulation.py:212-219 | as written, in the last four round-of-16 matches the opponent goes through exactly when the calling side wins |
| Knockout.AllOnesAsWritten | simulation.py:203-264 | with every match won by the calling side, as written: quarter-finalists the winners of groups 0, 2, 4, 6, 1, 3, 5, 7; semi-finalists of 0, 4, 1, 5; finalists of 0 and 1; third group 4's winner; cup group 0's winner |
| Knockout.AllOnes | simulation.py:203-264 | the same results in the corrected bracket send the runners-up of groups 0, 2, 4, 6 through, so group 0's top two meet in the final |
| Knockout.TeamAtIn | simulation.py:205 | the team in a slot is one of the groups' teams |
| Knockout.CountSnoc | simulation.py:207-208 | appending a place counts its team once more |
| Knockout.AddCounts | simulation.py:208 | crediting a place adds one to its team's count for that round |
| Knockout.AddQuarterFinalCount | simulation.py:208 | crediting a quarter-final place adds one to its team's quarter-final count and no other |
| Knockout.Send | simulation.py:208 | the team in the place gets the round counted once more; the ledger grows by that place |
| Knockout.Decide | simulation.py:205-219 | a knockout match sends the calling side through when `play` returns the tested value (1, or 0 in the second round-of-16 loop) and the other side otherwise, and credits the side going through with the round |
| Knockout.WireQuarter | simulation.py:204-211 | in the corrected bracket quarter-finalist k is the winner of match k |
| Knockout.WireQuarterAsWritten | simulation.py:204-219 | as written, quarter-finalist k is the side the loop holding match k sends through, and the later rounds are drawn from those quarter-finalists |
| Knockout.FromQuarterSemi | simulation.py:222-229 | semi-finalist k won the quarter-final between places 2k and 2k + 1 |
| Knockout.RoundOf16Loop | simulation.py:204-219 | one round-of-16 loop appends the side each of its four matches sends through (the winner in the first loop, the loser in the second) and credits its quarter-final |
| Knockout.RoundOf16 | simulation.py:203-219 | the round of 16 yields the as-written bracket's quarter-finalists in order, each credited |
| Knockout.QuarterFinals | simulation.py:221-229 | the quarter-final loop yields the semi-finalists, each credited |
| Knockout.FinalRounds | simulation.py:232-264 | the semi-finals, third-place match and final credit finalists, third place and cup as the bracket says |
| Knockout.KnockoutStage | simulation.py:192-264 | every team keeps its record, and its quarter, semi, final, third and winner tallies grow by how often it holds a place of each round of the bracket as written |

## Left out

- `generateTeams` (file reading, rating rescaling with floats and `round`, printing): ratings enter as natural numbers given to the `Team` constructor.
- `__repr__` and `__str__`: output formatting only.
- The driver's repeated simulation loop, the final sort by cups won and the printed table; one grouping step is modelled by `Lists.Group`.
- `randint`: every draw is a parameter. The draws are not required to fit the ratings; `Scoring.GoalsWithinAttack` states the bound under that hypothesis.
- Python's `int(a / b)` goes through a float; for the small non-negative operands here it equals floor division, which is what `Scoring.Goals` uses.
- Groups.GroupStage: requires the group to hold no team twice. The source runs on such a group, but a repeated team would be reset and credited through two positions; that case is not modelled.
- Groups.GroupStage: requires at least two teams; the source raises an index error on shorter groups. Knockout.KnockoutStage likewise requires eight groups of at least two teams.
- Groups.Replay: a pair that is not two positions of the group changes nothing; the schedule never holds one.
- Knockout.KnockoutStage: the groups are a `seq<seq<Team>>` of references, and the stage changes teams only, never the lists, as the source does.

## Findings

| source | as written | input that shows it | evidently intended | confidence | as-written member | corrected member |
|---|---|---|---|---|---|---|
| simulation.py:214 | the second round-of-16 loop sends `groups[i][-2]` through when `play` returns 0, which `play` returns when the calling team lost (simulation.py:144-147), so the loser of each of those four matches reaches the quarter-finals | any draws where the calling team of match 4 (counting from 0, the first of the second loop) outscores its opponent, e.g. attack draw 1 against defense draw 0 and an opponent attack draw of 0: the as-written bracket sends the winner of group 1, who lost, through | the winner goes through, as in the first loop and every later round (simulation.py:206, 224, 233, 244, 255, 261) | high (not executed) | Knockout.LosersAdvanceAsWritten | Knockout.WinnersAdvance |

The knockout-stage methods (`Knockout.RoundOf16Loop` up to `Knockout.KnockoutStage`) follow the code as written and credit the tallies along `Knockout.WireAsWritten`. `Knockout.Wire` is the corrected bracket, and `Knockout.WireNests` proves the nesting of rounds for both.

The docstring of `play` (simulation.py:121-123) says 0 means the calling team won, but the code returns 1 in that case. The model follows the code, and every round but the one above reads the result the same way.
