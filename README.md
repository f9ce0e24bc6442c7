# tenmans league backend — a Dafny model of its core

The tenmans backend runs a CS2 league: seasons and tournaments, rounds,
fixtures and per-map match results, team join requests, captains and
rosters, map-pool votes, the pick/ban lobby in which two captains choose
the maps of a fixture, a generic status-transition framework for players,
rosters, captains, teams and join requests, scoped roles and
permissions, bans, upload tokens, and a permission audit with its summary
report. This project models that core over in-memory tables: every
database table becomes a `map` or `seq` field of a class (or a value passed
in and out), every query becomes a function over those tables, and every
clock reading becomes an integer parameter. It proves what the code
promises about each operation: its guards and error cases, the exact new
state, what stays unchanged, and the invariants that hold across
operations.

The files follow the program's structure:

- `common.dfy`, `competition_data.dfy`, `match_models.dfy` — ids, results,
  the competition tables (tournaments, rounds, fixtures, registrations) and
  the per-map `Result` record.
- `validators.dfy`, `strategies.dfy`, `round_robin_cover.dfy`,
  `stable_sort.dfy`, `standings.dfy` — the tournament validator, the
  round-robin and single-elimination generators, Python's stable sort and
  the regular and knockout standings calculators.
- `tournament_service.dfy`, `rounds_service.dfy`, `fixture_service.dfy`,
  `match_service.dfy` — the tournament, round, fixture and match-result
  lifecycles.
- `legacy_fixtures.dfy`, `legacy_results.dfy`, `legacy_seasons.dfy`,
  `season_service.dfy` — the older season engine (circle-method double
  round robin, 3/1/0 table, knockout seeding, one result per fixture, the
  season stage gate) and the newer season service.
- `map_picker.dfy` — the BO1/BO3 pick/ban machines of both the current and
  the older lobby, the lobby's map lists, the connection manager's
  sequence-number rule and team membership.
- `status_checks.dfy`, `status.dfy`, `status_rules.dfy` — the status
  framework (first-matching rule, permission check, validators in order,
  update only after validation) and the five concrete rule tables.
- `access.dfy`, `accounts.dfy`, `admin.dfy` — scoped permissions, roles and
  their tables, player accounts, and the admin service.
- `join_requests.dfy`, `captains.dfy`, `rosters.dfy`, `teams.dfy`,
  `map_pools.dfy`, `upload.dfy` — the smaller workflows.
- `audit.dfy`, `report.dfy` — the permission auditor and the summary
  report.

Where the specification of the system and its code disagree, the model
follows the code; the places where that matters are listed under
"## Left out" and "## Findings".

## Model

| member | source | states |
|---|---|---|
| StableSort.SortDescCorrect | src/competitions/tournament/standings.py:87-91 | `sort(key=…, reverse=True)` yields a permutation of its input in non-increasing key order |
| StableSort.SortDescStable | src/competitions/tournament/standings.py:87-91 | the sort is stable: elements with equal keys keep their input order |
| StableSort.SortDescKeeps | src/competitions/tournament/standings.py:87-91 | what holds of every element before sorting holds of every element after |
| TournamentValidator.ValidateRegularConfig | src/competitions/tournament/generation/validators.py:28-46 | a regular configuration passes exactly when both fields are present, teams per group is an integer of at least 2 and the format is bo1, bo2, bo3 or bo5; a missing field is reported exactly when one is absent |
| TournamentValidator.ValidateKnockoutConfig | src/competitions/tournament/generation/validators.py:48-61 | a knockout configuration passes exactly when both fields are present, the seeding type is a known one and the format is bo1, bo3 or bo5; a missing field is reported exactly when one is absent |
| TournamentValidator.ValidateTournamentConfig | src/competitions/tournament/generation/validators.py:17-26 | an empty configuration is refused; regular and knockout tournaments get their own check; any other type passes |
| TournamentValidator.BestOfTwoOnlyForRegular | src/competitions/tournament/generation/validators.py:44-60 | bo2 is accepted for regular tournaments and refused for knockout ones |
| TournamentValidator.ValidateTournamentDates | src/competitions/tournament/generation/validators.py:63-82 | the dates pass exactly when the start is not in the past, the end is after the start, registration ends before the start and, with late registration, its end is set and before the start |
| TournamentValidator.FirstSmallRoster | src/competitions/tournament/generation/validators.py:97-101 | finds the first team from a position on whose roster is below the minimum, or none exactly when every later roster is large enough |
| TournamentValidator.ValidateTeams | src/competitions/tournament/generation/validators.py:84-103 | the teams pass exactly when their number lies between the minimum and the maximum and every roster reaches the minimum team size; a small-roster error names a team whose roster is too small |
| TournamentValidator.FirstOverlap | src/competitions/tournament/generation/validators.py:119-123 | finds the first round that ends after the next one starts, or none exactly when consecutive rounds do not overlap |
| TournamentValidator.ValidateRoundDates | src/competitions/tournament/generation/validators.py:105-123 | the rounds pass exactly when there are none, or the first starts within the tournament, the last ends within it and consecutive rounds do not overlap |
| TournamentValidator.ContinuousRoundsAreOrdered | src/competitions/tournament/generation/validators.py:119-123 | rounds that pass the continuity check are ordered: an earlier round ends no later than any later round starts |
| GenerationStrategies.ValidateTeamCount | src/competitions/tournament/generation/strategies.py:40-45 | the count is refused exactly when it is below the minimum or above the maximum, and "too few" takes precedence |
| GenerationStrategies.GetGenerationStrategy | src/competitions/tournament/generation/strategies.py:192-203 | regular tournaments get round robin, knockout ones single elimination, and any other type is an error |
| GenerationStrategies.BuildRounds | src/competitions/tournament/generation/strategies.py:67-77 | builds exactly the requested number of consecutive planned rounds, none for a negative count |
| GenerationStrategies.PlannedRoundsChain | src/competitions/tournament/generation/strategies.py:67-77 | planned rounds are numbered from 1, pending, seven days long, and each ends exactly when the next begins |
| GenerationStrategies.RoundRobinRounds | src/competitions/tournament/generation/strategies.py:50-78 | a team count out of bounds is refused; otherwise 2(n-1) group-stage rounds, none for no teams |
| GenerationStrategies.Pow2 | src/competitions/tournament/generation/strategies.py:167 | every power of two is at least 1 |
| GenerationStrategies.BitLengthBounds | src/competitions/tournament/generation/strategies.py:133 | the bit length of x is the least k with x < 2^k |
| GenerationStrategies.KnockoutRoundCount | src/competitions/tournament/generation/strategies.py:133 | (n-1).bit_length() is the least k with 2^k >= n, the number of rounds of a bracket of n teams |
| GenerationStrategies.SingleEliminationRounds | src/competitions/tournament/generation/strategies.py:122-151 | a team count out of bounds is refused; otherwise (n-1).bit_length() knockout-stage rounds |
| GenerationStrategies.WithBye | src/competitions/tournament/generation/strategies.py:91-94 | the padded list is the teams, followed by one bye exactly when their number is odd |
| GenerationStrategies.RoundRobinFixtures | src/competitions/tournament/generation/strategies.py:80-117 | exactly the n/2 non-bye pairs, in order: the k-th fixture pits team k against the team half the padded list further on, in the given round, in the tournament's match format (best of one by default) |
| GenerationStrategies.RoundRobinPairsDisjoint | src/competitions/tournament/generation/strategies.py:96-115 | with distinct teams, no fixture pits a team against itself and no team plays twice in one round |
| GenerationStrategies.FirstPlayedPairBounds | src/competitions/tournament/generation/strategies.py:171-174 | the first pair start that is not skipped is even, and an even start is skipped exactly when it lies below it |
| GenerationStrategies.KnockoutPairs | src/competitions/tournament/generation/strategies.py:171-188 | builds one fixture per even pair start from the first unskipped one below n, the last one with no second team when n is odd |
| GenerationStrategies.SingleEliminationFixtures | src/competitions/tournament/generation/strategies.py:153-190 | exactly the first-round pairs: rounds after the first get no fixtures; the first skips the pair starts below the bye count 2^ceil(log2 n) - n and pairs each remaining team with the next, in order |
| GenerationStrategies.SingleEliminationByeIsLast | src/competitions/tournament/generation/strategies.py:177 | a fixture lacks a second team exactly when its first team is the last of the list |
| Standings.WithTeam | src/competitions/tournament/standings.py:109-118 | a missing team is added with the zero value at the end of the order; present entries are untouched |
| Standings.Put | src/competitions/tournament/standings.py:121-148 | writing an existing key changes only that entry and keeps the order |
| Standings.Decide | src/competitions/tournament/standings.py:119-148 | a forfeit takes its forfeit winner, otherwise the match result's winner; no result exactly when unforfeited with no result; a mutual forfeit exactly when the forfeit has no winner; the loser is team 2 when team 1 won and team 1 otherwise |
| Standings.DecidedSides | src/competitions/tournament/standings.py:126-148 | between two distinct sides, a winner that is one of them leaves the other as the loser |
| Standings.TeamTable.constructor | src/competitions/tournament/standings.py:56 | the table starts empty |
| Standings.TeamTable.InitTeam | src/competitions/tournament/standings.py:109-118 | adding a team to the dictionary in place gives the table WithTeam describes |
| Standings.Losses | src/competitions/tournament/standings.py:121-123 | a loss for each side keeps the keys and keeps every entry consistent |
| Standings.WinLoss | src/competitions/tournament/standings.py:128-133 | a win for one side and a loss for the other keep the keys and keep every entry consistent |
| Standings.RegularFixture | src/competitions/tournament/standings.py:100-148 | processing a fixture fails with a key error exactly when its decided winner is neither side nor an existing entry; otherwise both sides are in the table |
| Standings.WithTeamGood | src/competitions/tournament/standings.py:109-118 | adding a zero entry keeps every entry consistent |
| Standings.RegularFixtureGood | src/competitions/tournament/standings.py:100-148 | processing a fixture keeps three points per win and played = won + lost for every entry |
| Standings.RegularFixtureEffect | src/competitions/tournament/standings.py:100-148 | a mutual forfeit is a loss for both sides, a decided fixture a win (+3 points) for the winner and a loss for the loser, a fixture without a result adds only the entries; no other entry changes |
| Standings.RegularFoldGood | src/competitions/tournament/standings.py:61-70 | the fixture loop of a round keeps every entry consistent |
| Standings.RegularRoundsGood | src/competitions/tournament/standings.py:59-70 | the round loop keeps every entry consistent |
| Standings.RegularOnlyFinishedCount | src/competitions/tournament/standings.py:62-63 | skipping unfinished fixtures is exact: the loop over the finished fixtures alone gives the same table |
| Standings.RegularRows | src/competitions/tournament/standings.py:74-85 | one row per key in order, each built from that key's entry and team name; fails exactly when some key has no team |
| Standings.RegularStandingsOrdered | src/competitions/tournament/standings.py:41-98 | the standings are the dictionary's rows, a permutation sorted by descending (points, wins, -losses) with ties in dictionary order, with no round, three points a win and played = won + lost |
| Standings.RegularRowsConsistent | src/competitions/tournament/standings.py:74-85 | every row of the regular table has three points a win and played = won + lost |
| Standings.ProcessFixtureResult | src/competitions/tournament/standings.py:100-148 | updating the dictionary in place gives RegularFixture's table, or its error |
| Standings.ProcessRegularRound | src/competitions/tournament/standings.py:61-70 | the fixture loop in place gives the fold over the round's fixtures, or its error |
| Standings.TallyRegular | src/competitions/tournament/standings.py:59-70 | the round loop in place gives the fold over all rounds, or its error |
| Standings.RegularRowsOf | src/competitions/tournament/standings.py:74-85 | the conversion loop gives RegularRows over the dictionary order |
| Standings.CalculateRegular | src/competitions/tournament/standings.py:41-98 | the regular calculator gives exactly the specified regular standings |
| Standings.Eliminations | src/competitions/tournament/standings.py:240-243 | eliminating both sides keeps the keys and every placement consistent |
| Standings.Advancement | src/competitions/tournament/standings.py:257-265 | advancing the winner and eliminating the loser keep the keys and every placement consistent |
| Standings.KnockoutFixture | src/competitions/tournament/standings.py:216-265 | processing a knockout fixture fails with a key error exactly when its decided winner is neither side nor an existing entry; otherwise both sides are in the table |
| Standings.KnockoutFixtureGood | src/competitions/tournament/standings.py:216-265 | processing a knockout fixture keeps played = won + lost for every placement |
| Standings.WithZeroGood | src/competitions/tournament/standings.py:226-237 | adding a placement with no matches keeps the placements consistent |
| Standings.KnockoutFixtureStatus | src/competitions/tournament/standings.py:238-265 | a mutual forfeit eliminates both sides; otherwise the loser is eliminated and the winner records the round and is 'qualified' above round 1 and 'winner' in round 1 |
| Standings.KnockoutFoldGood | src/competitions/tournament/standings.py:176-186 | the fixture loop of a knockout round keeps every placement consistent |
| Standings.KnockoutRoundsGood | src/competitions/tournament/standings.py:172-186 | the knockout round loop keeps every placement consistent |
| Standings.KnockoutRows | src/competitions/tournament/standings.py:190-200 | one row per key in order, built from its placement and team name; fails exactly when some key has no team |
| Standings.KnockoutStandingsOrdered | src/competitions/tournament/standings.py:153-214 | the knockout standings are the dictionary's rows, a permutation sorted by descending (wins, -losses, played) with ties in dictionary order and no points; a round is reported exactly when there was one |
| Standings.KnockoutRowsConsistent | src/competitions/tournament/standings.py:190-200 | every knockout row has no points and played = won + lost |
| Standings.ProcessKnockoutFixture | src/competitions/tournament/standings.py:216-265 | updating the dictionary in place gives KnockoutFixture's table, or its error |
| Standings.ProcessKnockoutRound | src/competitions/tournament/standings.py:176-186 | the knockout fixture loop in place gives the fold over the round's fixtures, or its error |
| Standings.TallyKnockout | src/competitions/tournament/standings.py:172-186 | the round loop in place gives the fold over all rounds, and the current round is the last one visited |
| Standings.KnockoutRowsOf | src/competitions/tournament/standings.py:190-200 | the conversion loop gives KnockoutRows over the dictionary order |
| Standings.CalculateKnockout | src/competitions/tournament/standings.py:153-214 | the knockout calculator gives exactly the specified knockout standings |
| Standings.Lower | src/competitions/tournament/standings.py:274 | lower-casing changes exactly the ASCII capitals, each to its small letter, and keeps the length |
| Standings.GetStandingsCalculator | src/competitions/tournament/standings.py:267-278 | 'regular' and 'knockout' in any letter case select their calculator; anything else is an error |
| Standings.LowerIdempotent | src/competitions/tournament/standings.py:274 | lower-casing twice is lower-casing once |
| Standings.LowerOfLowercase | src/competitions/tournament/standings.py:274 | a string without capitals is its own lower case |
| Standings.CalculatorIgnoresCase | src/competitions/tournament/standings.py:267-278 | the calculator lookup ignores letter case |
| Standings.CalculatorPerType | src/competitions/tournament/standings.py:267-278 | regular and knockout tournament types have a calculator and pug tournaments do not |
| TournamentService.ApplyUpdate | src/competitions/tournament/service.py:127-129 | the fields that are set in the update are written, the always-present format configuration replaces the stored one (a null one counts as empty), and every other field keeps its value |
| TournamentService.UpdateAsWritten | src/competitions/tournament/service.py:107-136 | as written, no update succeeds: a started tournament is refused, and for one that has not started the required `format_config` always reaches the validator as a plain dict, which raises |
| TournamentService.Update | src/competitions/tournament/service.py:107-136 | as intended, an update succeeds exactly when the tournament has not started and the merged tournament passes the configuration check; the stored configuration becomes the update's, a null configuration is refused as missing, and a started tournament is refused as such |
| TournamentService.UpdateAsWrittenRefusesValidConfig | src/competitions/tournament/service.py:119-124 | the written and the intended update agree on a started tournament, and every update the intended one accepts is refused as written |
| TournamentService.UpdateAsWrittenCounterexample | src/competitions/tournament/service.py:119-124 | a valid regular configuration for a regular tournament that has not started is refused as written and accepted as intended |
| TournamentService.UpdateTournament | src/competitions/tournament/service.py:107-136 | the stored tournament is replaced by the intended update's result, or left alone on an error |
| TournamentService.RegisteredTeams | src/competitions/tournament/service.py:539-551 | a team is listed exactly when it holds an approved registration for the tournament |
| TournamentService.RosterCounts | src/competitions/tournament/generation/validators.py:97-98 | one roster size per team, in order |
| TournamentService.PlannedRounds | src/competitions/tournament/generation/strategies.py:67-77 | exactly the first count planned rounds, in order |
| TournamentService.GenerationCheck | src/competitions/tournament/service.py:163-195 | a generation passes only when the configuration, the dates and the teams pass, the type has a strategy and at least one round is generated |
| TournamentService.TeamCheckSubsumesCount | src/competitions/tournament/service.py:165-171 | once the team check has passed, the strategy's team-count check cannot fail |
| TournamentService.AddRows | src/competitions/tournament/service.py:177 | each added row is stored under its own fresh id and every existing row keeps its id and value |
| TournamentService.StrategyFixtures | src/competitions/tournament/service.py:183-188 | the fixtures are exactly the chosen strategy's pairing for the round; each belongs to the tournament and the round; round robin yields n/2 fixtures and single elimination none after round 1 |
| TournamentService.AllFixtures | src/competitions/tournament/service.py:181-189 | the loop yields exactly each round's pairing, round after round under that round's id; every fixture belongs to the tournament and to one of the generated rounds |
| TournamentService.RoundRobinFixtureCount | src/competitions/tournament/service.py:181-189 | a round-robin structure of r rounds for n teams has r * (n / 2) fixtures |
| TournamentService.SavedRoundsArePlanned | src/competitions/tournament/service.py:177 | every round the save adds is one of the planned rounds |
| TournamentService.SavedRoundsAreAll | src/competitions/tournament/service.py:177 | every planned round is among those the save adds |
| TournamentService.SaveStructure | src/competitions/tournament/service.py:176-191 | saving keeps existing rows, adds exactly the planned rounds under fresh ids, and adds exactly the rounds' pairings as fixtures under fresh ids, nothing else |
| TournamentService.AddGeneratedFixtures | src/competitions/tournament/service.py:191 | existing fixtures are kept and exactly the given fixtures are added, each under its own fresh id |
| TournamentService.BuildStructure | src/competitions/tournament/service.py:169-191 | the strategy's planned rounds are added under fresh ids, and exactly their pairings are added as fixtures, nothing else |
| TournamentService.GenerateTournamentStructure | src/competitions/tournament/service.py:144-202 | a missing tournament and one not REGISTRATION_CLOSED are refused; otherwise the result is the generation check; a failure changes nothing; a success adds exactly the planned rounds and exactly their pairings as fixtures, and moves the tournament to NOT_STARTED, starting at its scheduled start |
| TournamentService.SaveGeneratedStructure | src/competitions/tournament/service.py:176-198 | exactly the planned rounds and their pairings are added and the tournament moves to NOT_STARTED with its actual start at the first round's start |
| TournamentService.CompleteTournament | src/competitions/tournament/service.py:210-228 | only an IN_PROGRESS tournament is completed; otherwise it is refused and nothing changes |
| TournamentService.CancelTournament | src/competitions/tournament/service.py:235-248 | any tournament but a completed one is cancelled; a completed one is refused and nothing changes |
| TournamentService.StartTournament | src/competitions/tournament/service.py:559-590 | a NOT_STARTED tournament with a round 1 goes IN_PROGRESS, started now, and round 1 becomes active; otherwise the error says why and nothing changes |
| TournamentService.TeamOf | src/competitions/tournament/service.py:730 | the winner's team, or none when the winner is missing or not a team |
| TournamentService.FixtureWinner | src/competitions/tournament/service.py:709-728 | a forfeited fixture's winner is its forfeit winner and fails without one; otherwise the match result's winner, failing without a result |
| TournamentService.Extend | src/competitions/tournament/service.py:731 | prefixing keeps an error and prepends to a success |
| TournamentService.ExtendEmpty | src/competitions/tournament/service.py:731 | prefixing nothing changes nothing |
| TournamentService.ExtendTwice | src/competitions/tournament/service.py:731 | prefixing twice is prefixing the concatenation |
| TournamentService.RoundWinnersMeaning | src/competitions/tournament/service.py:700-733 | winners fail exactly when some fixture has no readable winner; otherwise one entry per fixture, in fixture order, its winning team |
| TournamentService.GetRoundWinners | src/competitions/tournament/service.py:700-733 | the loop gives the winners list of the round's fixtures |
| TournamentService.WinnerIds | src/competitions/tournament/service.py:637-642 | the ids of a list of teams, one per entry in order |
| TournamentService.AdvanceWinners | src/competitions/tournament/service.py:633-645 | reading the winners fails exactly when a fixture has no readable winner, or a next round 1 gets a missing winner; existing fixtures are kept, and only generated fixtures of the next round are added, none unless it is round 1 |
| TournamentService.CompleteRound | src/competitions/tournament/service.py:592-653 | a missing tournament or round, or a round with unfinished fixtures, is refused and nothing changes; otherwise the round completes, and either the next round becomes active or, with no next round, the tournament completes now; fixtures are added only for a knockout next round numbered 1 |
| TournamentService.GetRegistrations | src/competitions/tournament/service.py:321-352 | a registration is listed exactly when it belongs to the tournament and has the requested status, if one is given |
| TournamentService.RegistrationTotals | src/competitions/tournament/service.py:321-352 | the approved and pending totals count disjoint parts of the list; a status filter zeroes the other status's total; unfiltered, the approved total is the count the capacity check uses |
| TournamentService.RegistrationTotalsBound | src/competitions/tournament/service.py:340-347 | the approved and pending totals together are at most the number listed |
| TournamentService.RegistrationTotalsFiltered | src/competitions/tournament/service.py:340-347 | the totals under a status filter: only the filtered status can count, and a pending filter counts every entry |
| TournamentService.ValidateRegistrationRequest | src/competitions/tournament/service.py:483-537 | a request passes exactly when the registration window is open, the team holds no place, the actor captains it, its roster is large enough and the tournament is not full; each error in its own case, in the source's order |
| TournamentService.RequestKeepsOnePlace | src/competitions/tournament/service.py:354-399 | an accepted request keeps every team to at most one place per tournament |
| TournamentService.RequestRegistration | src/competitions/tournament/service.py:354-399 | a missing tournament or team is refused; otherwise the validation decides; a success adds one new PENDING registration under a fresh id and keeps one place per team |
| TournamentService.FindRegistration | src/competitions/tournament/service.py:307-320 | the registration is found exactly when it exists and belongs to the tournament |
| TournamentService.ReviewAsWritten | src/competitions/tournament/service.py:400-433 | as written, no review succeeds: a PENDING registration fails on reading the review's notes |
| TournamentService.ReviewRegistrationRecord | src/competitions/tournament/service.py:400-433 | as intended, a review succeeds exactly on a PENDING registration, which takes the review's status and notes and records who reviewed it and when; nothing else changes |
| TournamentService.ReviewAsWrittenNeverSucceeds | src/competitions/tournament/service.py:400-433 | for every PENDING registration, the written review fails and the intended one succeeds |
| TournamentService.ReviewKeepsOnePlace | src/competitions/tournament/service.py:400-433 | a review keeps every team to at most one place per tournament |
| TournamentService.ReviewRegistration | src/competitions/tournament/service.py:400-433 | the stored registration becomes the intended review's result, or stays on an error; one place per team is kept |
| TournamentService.WithdrawRegistration | src/competitions/tournament/service.py:434-482 | a withdrawal succeeds exactly when the registration exists, the actor captains its team and the tournament allows withdrawal; the registration becomes WITHDRAWN with who, when and why; nothing changes on an error |
| RoundService.AppendNote | src/competitions/rounds/service.py:268 | the logged entry ends the new notes: on a new line after existing notes, or alone when there are none or they are empty |
| RoundService.CreateCheck | src/competitions/rounds/service.py:78-88 | creation passes exactly when the tournament exists, is NOT_STARTED or IN_PROGRESS, and the number exceeds its count of rounds; a missing or closed tournament is reported as such |
| RoundService.CreateKeepsNumbersDistinct | src/competitions/rounds/service.py:85-88 | with rounds numbered 1 to their count, the sequential-number guard admits only unused numbers, and a round numbered one past the count keeps the numbering contiguous |
| RoundService.CreateRound | src/competitions/rounds/service.py:66-103 | a refused creation changes nothing and says why; otherwise exactly one new "pending" round is added under a fresh id |
| RoundService.StartCheck | src/competitions/rounds/service.py:117-129 | starting passes exactly when the round is "pending" and, past round 1, the previous round (when there is one) is "completed" |
| RoundService.WithStatus | src/competitions/rounds/service.py:131 | changing a round's status keeps which rounds there are and their numbers |
| RoundService.StartKeepsProgress | src/competitions/rounds/service.py:110-134 | starting a round keeps rounds from leaving "pending" before their predecessor is completed |
| RoundService.CompleteKeepsProgress | src/competitions/rounds/service.py:141-160 | completing an active round keeps that invariant |
| RoundService.StartRound | src/competitions/rounds/service.py:110-134 | the result is the start check; a refusal changes nothing and a success makes the round "active" |
| RoundService.CompleteCheck | src/competitions/rounds/service.py:148-155 | completion passes exactly when the round is "active" and every fixture of it is COMPLETED; each refusal in its own case |
| RoundService.ForfeitBlocksCompletion | src/competitions/rounds/service.py:152-155 | a round with a forfeited fixture cannot be completed here |
| RoundService.CompleteRound | src/competitions/rounds/service.py:141-160 | the result is the completion check; a refusal changes nothing and a success makes the round "completed" |
| RoundService.ValidateRoundDates | src/competitions/rounds/service.py:199-216 | an unknown tournament is an error; otherwise the dates are valid exactly when the round starts no earlier than registration ends and ends no later than the scheduled end |
| RoundService.StatusBuckets | src/competitions/rounds/service.py:226-228 | the completed, scheduled and cancelled counts together are at most the number of fixtures |
| RoundService.CompletedCountMeaning | src/competitions/rounds/service.py:226 | every fixture is counted as completed exactly when every fixture of the round is COMPLETED |
| RoundService.Percentage | src/competitions/rounds/service.py:235 | the percentage lies between 0 and 100, is 100 exactly when every fixture of a non-empty round is completed, and 0 exactly when none is |
| RoundService.GetRoundSummary | src/competitions/rounds/service.py:218-236 | the total is the number of the round's fixtures, the status counts fit in it, and the percentage is 100 exactly when all of a non-empty round's fixtures are completed and 0 exactly when none is |
| RoundService.Chain | src/competitions/rounds/service.py:363-377 | the rounds the cascade visits: the tournament's rounds numbered k, k+1, ... in order |
| RoundService.ChainAt | src/competitions/rounds/service.py:350-361 | each step of the chain is the round the next-round lookup returns |
| RoundService.ChainEnd | src/competitions/rounds/service.py:350-377 | the chain stops where the next-round lookup finds nothing |
| RoundService.ChainDistinct | src/competitions/rounds/service.py:363-377 | the cascade never visits a round twice |
| RoundService.Shift | src/competitions/rounds/service.py:372-373 | a shifted round starts diff later and keeps its length; nothing else changes |
| RoundService.ChainShape | src/competitions/rounds/service.py:363-377 | the chain depends only on which rounds there are and their numbers, not on their dates |
| RoundService.CascadedMovesChain | src/competitions/rounds/service.py:363-377 | the cascade moves exactly the rounds of the chain, each by diff, and leaves every other round as it was |
| RoundService.CascadeKeepsSpacing | src/competitions/rounds/service.py:363-377 | the cascade keeps the gap between consecutive rounds of the chain |
| RoundService.CascadeRoundDates | src/competitions/rounds/service.py:363-377 | the loop gives the cascaded round table |
| RoundService.ExtendCheck | src/competitions/rounds/service.py:253-257 | an extension passes exactly when the round is not completed and the new end is later than the current one |
| RoundService.ExtendKeepsSuccessorAfter | src/competitions/rounds/service.py:244-271 | an extension never makes a round overlap its successor |
| RoundService.ExtendMovesOnlyLaterRounds | src/competitions/rounds/service.py:244-271 | an extension moves only later rounds of the same tournament, each by the extension, keeping its length |
| RoundService.ExtendAsWritten | src/competitions/rounds/service.py:244-271 | as written no extension succeeds: a refused one is refused as intended, and one that passes the guards raises on the undeclared `admin_notes` attribute |
| RoundService.ExtendCounterexample | src/competitions/rounds/service.py:268 | an active round ending at 10, extended to 20, passes the intended guards and raises as written |
| RoundService.ExtendRoundDeadline | src/competitions/rounds/service.py:244-271 | the result is the extension check; a refusal changes nothing and a success gives the extended round table |
| RoundService.AutoForfeited | src/competitions/rounds/service.py:297-300 | a fixture forfeited at the deadline is FORFEITED with the note and keeps its winner, nothing else changing |
| RoundService.DeadlineLeavesNothingUnplayed | src/competitions/rounds/service.py:278-307 | after the deadline forfeits every fixture of the round is finished or cancelled, and every other fixture is as it was |
| RoundService.ForfeitEachUnplayed | src/competitions/rounds/service.py:289-301 | the loop lists exactly the round's unplayed fixtures and leaves the deadline-forfeited table |
| RoundService.ForfeitedAllListed | src/competitions/rounds/service.py:297-301 | once every listed fixture is forfeited, the table is the deadline-forfeited one |
| RoundService.ForfeitUnplayedFixtures | src/competitions/rounds/service.py:278-307 | a completed round is refused and nothing changes; otherwise the unplayed fixtures are forfeited, listed, and the round is "completed" |
| RoundService.ReopenCheck | src/competitions/rounds/service.py:323-333 | a reopen passes exactly when the round is completed, the new end is in the future and the tournament exists and is not completed |
| RoundService.Reopened | src/competitions/rounds/service.py:335-345 | a reopen keeps which rounds there are and their numbers |
| RoundService.ReopenedRoundPrecedesNext | src/competitions/rounds/service.py:335-345 | after a reopen the round is active until the new end, and its successor is "pending" and starts exactly then |
| RoundService.ReopenAsWritten | src/competitions/rounds/service.py:314-348 | as written no reopen succeeds: a refused one is refused as intended, and one that passes the guards raises on the undeclared `admin_notes` attribute |
| RoundService.ReopenCounterexample | src/competitions/rounds/service.py:338 | a completed round of a tournament in progress, reopened until 20 at time 5, passes the intended guards and raises as written |
| RoundService.ReopenRound | src/competitions/rounds/service.py:314-348 | the result is the reopen check; a refusal changes nothing and a success gives the reopened round table |
| Access.VerifyPermissions | src/auth/service/permission.py:135-162 | `verify_permissions` answers true exactly when every required name is met by some grant: a global one, or one of the asked scope's type whose id matches (any id when the scope has none) |
| Access.VerifiedMonotone | src/auth/service/permission.py:135-162 | more grants never make a verification fail |
| Access.GlobalGrantAnywhere | src/auth/service/permission.py:150-152 | a global grant of a permission meets that requirement in every scope |
| Access.UnscopedNeedsGlobal | src/auth/service/permission.py:154-157 | without a scope only global grants count |
| Access.RowGrants | src/auth/service/permission.py:110-132 | one assignment grants exactly the permissions linked to its role, in its scope |
| Access.PlayerGrantsFrom | src/auth/service/permission.py:110-132 | every grant of a player comes from one of the player's assignments |
| Access.PlayerGrantsHas | src/auth/service/permission.py:110-132 | every assignment of the player contributes its grants |
| Access.Named | src/roles/service.py:31-35 | the permissions selected by name are exactly those of the table whose names were asked for |
| Access.NamedCard | src/roles/service.py:31-39 | with unique names, as many permissions are found as distinct table names were asked for |
| Access.CountCheckPasses | src/roles/service.py:37-39 | the count check passes exactly when every name exists and none is repeated |
| Access.Matching | src/auth/service/role.py:227-256 | the assignments `remove_role_from_player` selects are exactly those matching player, role, scope type and (when given) scope id |
| Access.AccessStore.constructor | src/auth/service/permission.py:28-29 | a new store has no permissions, roles or assignments |
| Access.AccessStore.CreatePermission | src/auth/service/permission.py:63-87 | a used name is refused with nothing changed; otherwise the permission is appended; names stay unique |
| Access.AccessStore.DeletePermission | src/auth/service/permission.py:88-109 | a missing id is refused with nothing changed; otherwise the permission goes and so does every role's link to it |
| Access.AccessStore.AllKnown | src/auth/service/role.py:80-86 | the permission ids are checked one by one: true exactly when each names a permission |
| Access.AccessStore.CreateRole | src/auth/service/role.py:69-99 | an existing name, then an unknown permission id, is refused; otherwise the role linked to the given permissions is appended |
| Access.AccessStore.UpdateRole | src/auth/service/role.py:100-130 | a missing role, then an unknown permission id, is refused; otherwise exactly that role's permission list is replaced |
| Access.AccessStore.DeleteRole | src/auth/service/role.py:131-153 | a missing role is refused; otherwise the role and all its assignments go |
| Access.AccessStore.AssignRole | src/auth/service/role.py:192-221 | a non-global scope without an id is refused; otherwise exactly one assignment is appended |
| Access.AccessStore.RemoveRoleFromPlayer | src/auth/service/role.py:227-256 | a non-global scope without an id is refused; several matches are refused, none fails; a single match is the one row removed |
| Access.AccessStore.CreateNamedRole | src/roles/service.py:19-42 | an existing name is refused; fewer permissions found than names given is refused; otherwise the role is appended with exactly the permissions found |
| Access.AccessStore.EditRole | src/roles/service.py:44-61 | a missing role is refused, then the count check; otherwise the role's permissions become those found |
| Access.AccessStore.GetOrCreateRole | src/roles/service.py:80-89 | an existing role comes back unchanged; otherwise a role with the fresh id, the name, the time and exactly the named permissions that exist is appended |
| Access.AccessStore.GetOrCreateAdminRole | src/roles/service.py:91-113 | an existing admin role comes back unchanged; otherwise an admin role linked to every permission is appended |
| Access.DeleteRoleGrantsNothingNew | src/auth/service/role.py:131-153 | after a role is deleted, every grant a player has was already a grant before |
| Access.DeleteRoleNeverGrants | src/auth/service/role.py:131-153 | deleting a role never makes a verification succeed that failed before |
| Access.VerifyRole | src/auth/service/role.py:154-163 | `verify_role`: true exactly when one of the player's role names is among the allowed names |
| Accounts.AccountIndex | src/auth/service.py:60-64 | the lookup finds an account exactly when one has the uid, and the index it returns holds that uid |
| Accounts.AccountIndexAsWritten | src/auth/service.py:60-64 | as written, every uid lookup fails, registered uid or not |
| Accounts.LookupCounterexample | src/auth/service.py:60-64 | for a registered uid the written lookup fails while the intended one finds the account |
| Accounts.Updated | src/auth/service.py:318-324 | the update writes the name it carries (the later `PlayerUpdate` schema holds only a name) and every other field, the uid and the password hash among them, keeps its value |
| Accounts.SameNameKeeps | src/auth/service.py:318-324 | writing the name an account already has leaves it unchanged |
| Accounts.UpdateIdempotent | src/auth/service.py:318-324 | applying the same update twice is the same as applying it once |
| Accounts.LaterUpdateWins | src/auth/service.py:318-324 | of two updates in a row only the later one is visible |
| Accounts.AccountTable.constructor | src/auth/service.py:250-278 | the table starts with no accounts |
| Accounts.AccountTable.CreatePlayer | src/auth/service.py:250-278 | an email already registered is refused and nothing changes; otherwise one email account is appended, holding the password's hash; uniqueness of uids and emails is preserved |
| Accounts.AccountTable.UpdatePlayer | src/auth/service.py:313-329 | an unknown uid changes nothing and yields nothing; otherwise exactly that account is replaced by its renamed form, which is returned; uniqueness of uids and emails is preserved |
| StatusFramework.FirstRule | src/status/transition_validator.py:76-81 | the first rule whose from-set (None: any) holds the current status and whose to-set holds the new one; None exactly when no rule applies |
| StatusFramework.RunChecks | src/status/transition_validator.py:101-104 | the validators pass exactly when every one holds; otherwise a validation failure or the exception a validator raised |
| StatusFramework.FirstFailingCheck | src/status/transition_validator.py:101-104 | a failure is that of the first validator that does not hold, all before it holding |
| StatusFramework.RuleVerdict | src/status/transition_validator.py:88-104 | the deciding rule passes exactly when its permissions are held at global scope and all its validators hold; it never reports a missing rule |
| StatusFramework.OneCheckVerdict | src/status/transition_validator.py:88-104 | a one-validator rule passes exactly when its permissions are held and that validator holds |
| StatusFramework.TwoCheckVerdict | src/status/transition_validator.py:88-104 | a two-validator rule passes exactly when its permissions are held and both validators hold |
| StatusFramework.Decide | src/status/transition_validator.py:57-104 | `validate_transition`: "no valid transition rule" exactly when no rule applies; otherwise the deciding rule's verdict |
| StatusFramework.FirstIs | src/status/transition_validator.py:76-81 | an applicable rule with no applicable rule before it is the first rule |
| StatusFramework.FirstRuleAppend | src/status/transition_validator.py:53-81 | rules added after an applicable rule never become the first |
| StatusFramework.LaterRulesIgnored | src/status/transition_validator.py:53-81 | adding rules never changes the decision on a move an earlier rule covers |
| StatusFramework.NoRuleIff | src/status/transition_validator.py:83-86 | a move is refused for want of a rule exactly when no rule applies |
| StatusFramework.TransitionManager.constructor | src/status/transition_validator.py:44-51 | a new manager has its statuses and entity type and no rules |
| StatusFramework.TransitionManager.AddRule | src/status/transition_validator.py:53-55 | `add_rule` appends the rule |
| StatusFramework.TransitionManager.ValidateTransition | src/status/transition_validator.py:57-104 | `validate_transition` answers exactly the decision of the specification |
| StatusFramework.FindRule | src/status/transition_validator.py:76-81 | the search loop finds exactly the first applicable rule |
| StatusFramework.RunValidators | src/status/transition_validator.py:101-104 | the validator loop answers exactly the specification's verdict of the validators |
| StatusFramework.Attempt | src/status/service.py:66-118 | an unknown status is refused; the move succeeds exactly when the decision passes, otherwise fails with the decision's failure; a success changes status, reason, time and actor and nothing else |
| StatusFramework.AttemptAsWritten | src/status/service.py:66-118 | as written no transition succeeds: an unknown status and an uncovered move are refused as intended, a rule listing permissions raises on the actor's id, and every move the intended service accepts raises on the actor's id |
| StatusFramework.EntriesOf | src/status/service.py:128-132 | the selected entries are exactly those about the entity |
| StatusFramework.View | src/status/service.py:137-147 | a history view carries the metadata exactly when asked for |
| StatusFramework.Views | src/status/service.py:137-147 | one view per entry, in order |
| StatusFramework.StatusHistory | src/status/service.py:121-147 | `get_status_history`: one view per entry about the entity, each carrying metadata exactly when asked for |
| StatusFramework.HistoryNewestFirst | src/status/service.py:132 | the history is ordered newest first |
| StatusFramework.HistoryOnlyOfEntity | src/status/service.py:128-132 | every view in the history shows an entry about the entity |
| StatusFramework.HistoryComplete | src/status/service.py:128-147 | every entry about the entity appears in its history |
| StatusFramework.TransitionService.constructor | src/status/service.py:17-20 | a new service has no managers and an empty log |
| StatusFramework.TransitionService.Register | src/status/service.py:22-28 | registering a manager for an entity type replaces any earlier one |
| StatusFramework.TransitionService.TransitionStatus | src/status/service.py:47-119 | no manager for the entity's class is refused; otherwise the attempt's outcome; the log is unchanged on failure and gains one entry recording previous and new status on success |
| StatusChecks.RunCheck | src/status/transition_validator.py:109-130 | the reason validators hold exactly on a reason that is not blank; the active-matches validator always holds |
| StatusChecks.SuspensionIgnoresPlayerStatuses | src/status/transition_validator.py:120-130 | the suspension validator never asks for an end date on a player status, whose texts are lower case |
| StatusChecks.SuspensionNeedsEndDate | src/status/transition_validator.py:120-130 | on the status whose text is SUSPENDED the suspension validator holds exactly when an end date is given |
| StatusChecks.RosterPermissionDecision | src/status/manager/roster.py:16-98 | without a session the roster permission validator raises; with one it passes exactly a global team admin, a player leaving their ACTIVE entry, or another player's captain on a captain-table move |
| FixtureService.CreateCheck | src/competitions/fixtures/service.py:108-139 | creation passes exactly when the tournament exists and is open, the round belongs to it and is active, both teams exist and the time is in the round's window; earlier guards are reported first |
| FixtureService.NewFixture | src/competitions/fixtures/service.py:141-148 | the new fixture is SCHEDULED between exactly the two requested teams, in the requested round at the requested time, with nothing rescheduled or forfeited |
| FixtureService.CreatedFixtureFitsRound | src/competitions/fixtures/service.py:108-148 | a created fixture lies inside its active round's window and is between two different teams |
| FixtureService.CreateFixture | src/competitions/fixtures/service.py:108-148 | a refused creation says why and changes nothing; otherwise one new fixture is added under a fresh id; sides stay distinct and completed fixtures untouched |
| FixtureService.WindowCheck | src/competitions/fixtures/service.py:166-173 | a new time passes exactly when the round exists and the time is in its window; each refusal in its own case |
| FixtureService.UpdateCheck | src/competitions/fixtures/service.py:155-173 | an update passes exactly when the fixture is neither completed nor cancelled, a new time, if given, is in the round's window, and neither the time nor the status is set to null; a null time skips the window check and is refused |
| FixtureService.Updated | src/competitions/fixtures/service.py:174-176 | each field the update sets to a value takes it, an explicit null clears the admin notes, and every other field is kept |
| FixtureService.EmptyUpdateKeeps | src/competitions/fixtures/service.py:174-176 | an update that sets no field leaves the fixture as it was |
| FixtureService.UpdateIdempotent | src/competitions/fixtures/service.py:174-176 | applying the same update twice is applying it once |
| FixtureService.UpdateFixture | src/competitions/fixtures/service.py:155-180 | the result is the update check; a refusal changes nothing and a success replaces the fixture by its updated form |
| FixtureService.RescheduleCheck | src/competitions/fixtures/service.py:188-205 | a reschedule passes exactly when the fixture is not locked and the new time is in its round's window |
| FixtureService.Rescheduled | src/competitions/fixtures/service.py:207-210 | the new time, author and reason are recorded and the old time kept in rescheduled_from; status, teams and round are kept |
| FixtureService.RescheduleUndoable | src/competitions/fixtures/service.py:207-210 | a reschedule loses only the previous reschedule record: the old time comes back from rescheduled_from |
| FixtureService.RescheduleFixture | src/competitions/fixtures/service.py:188-213 | the result is the reschedule check; a refusal changes nothing and a success records the reschedule |
| FixtureService.CheckRoundCompletion | src/competitions/fixtures/service.py:275-283 | the round is complete exactly when every fixture of it is COMPLETED or FORFEITED, and a round without fixtures is complete |
| FixtureService.RoundCompletionAsWritten | src/competitions/fixtures/service.py:242-245 | as written, when the round exists and every fixture is finished, the round service's completion runs and its refusal fails the operation |
| FixtureService.ForfeitThenCompletionFails | src/competitions/fixtures/service.py:235-245 | as written, the completion after a forfeit always fails, because the forfeited fixture is not COMPLETED |
| FixtureService.ForfeitLastFixtureExample | src/competitions/fixtures/service.py:221-245 | forfeiting the only fixture of an active round passes its checks, and then the completion fails |
| FixtureService.RoundCompletion | src/competitions/rounds/service.py:141-160 | as intended, with forfeited fixtures counted as finished: only the fixture's round can change; once all its fixtures are finished it is completed when ACTIVE, and the "Round is not active" refusal is kept for any other status; it ends COMPLETED exactly when it was COMPLETED or all its fixtures are finished |
| FixtureService.CompletionAgreesWithoutForfeits | src/competitions/fixtures/service.py:268-271 | without a forfeited fixture in the round, the written completion and the intended one agree, refusals included |
| FixtureService.ForfeitCheck | src/competitions/fixtures/service.py:228-233 | a forfeit passes exactly when the fixture is not COMPLETED and the winner is one of its sides |
| FixtureService.Forfeited | src/competitions/fixtures/service.py:235-237 | the fixture becomes FORFEITED, won by the winner for the reason; nothing else changes |
| FixtureService.ForfeitFixture | src/competitions/fixtures/service.py:221-247 | the result is the forfeit check; a refusal changes nothing; a success forfeits the fixture to one of its sides and applies the intended round completion, and a refused round completion fails the whole request and changes nothing |
| FixtureService.CompleteCheck | src/competitions/fixtures/service.py:260-262 | only an IN_PROGRESS fixture can be completed |
| FixtureService.CompleteFixture | src/competitions/fixtures/service.py:254-273 | the result is the completion check; a success makes the fixture COMPLETED and applies the intended round completion; a refused round completion fails the whole request and changes nothing |
| FixtureService.CompletedIsFinal | src/competitions/fixtures/service.py:155-262 | no operation of the service accepts a COMPLETED fixture |
| FixtureService.AddPlayerCheck | src/competitions/fixtures/service.py:308-323 | adding a player passes exactly when the fixture exists, is SCHEDULED and the player's team is one of its sides |
| FixtureService.AddMatchPlayer | src/competitions/fixtures/service.py:308-330 | a refusal says why and changes nothing; otherwise the player is added under a fresh id |
| StatusRules.InitializePlayerManager | src/status/manager/player.py:7-92 | the player manager carries exactly the player rule table over the player statuses |
| StatusRules.PlayerFirstRule | src/status/manager/player.py:15-90 | the first player rule matching a move is the table's rule for it, if any |
| StatusRules.PlayerRuleShape | src/status/manager/player.py:15-90 | the deciding rule of a player move requires the move's permission and a reason, plus the suspension validator for a suspension |
| StatusRules.PlayerNoRule | src/status/manager/player.py:15-90 | a player move matches no rule exactly when the table lacks it |
| StatusRules.PlayerPasses | src/status/manager/player.py:15-90 | a player move passes exactly when the table has it, the actor holds its permission globally and the reason is not blank; a suspension needs no end date |
| StatusRules.PlayerRuleVerdict | src/status/manager/player.py:15-90 | the deciding rule passes exactly when the actor holds its permission globally and the reason is not blank |
| StatusRules.PlayerTerminalStatuses | src/status/manager/player.py:60-76 | from BANNED or DELETED every move but to DELETED matches no rule |
| StatusRules.PlayerReasonRequired | src/status/manager/player.py:15-90 | a blank reason refuses every player move |
| StatusRules.InitializeRosterManager | src/status/manager/roster.py:116-162 | the roster manager carries exactly the roster rule table over the roster statuses |
| StatusRules.RosterFirstRule | src/status/manager/roster.py:128-161 | the first roster rule matching a move is the table's rule for it, if any |
| StatusRules.RosterRuleShape | src/status/manager/roster.py:128-161 | every roster rule runs the reason validator, then the permission validator, and lists no permission |
| StatusRules.RosterNoRule | src/status/manager/roster.py:128-161 | a roster move matches no rule exactly when the table lacks it |
| StatusRules.RosterPasses | src/status/manager/roster.py:16-161 | a roster move with a session passes exactly when the table has it, the reason is not blank and the permission validator lets the actor make it |
| StatusRules.RosterBlankReasonRaises | src/status/manager/roster.py:100-114 | a blank reason on a table move raises ValueError before the permission validator runs |
| StatusRules.RosterRemovalOnlyFromActive | src/status/manager/roster.py:82-141 | the captain table of the validator allows PENDING/SUSPENDED to REMOVED, yet the manager has no rule for it |
| StatusRules.RosterPastOnlyAdmins | src/status/manager/roster.py:19-161 | only a global team admin with a reason can move an entry to PAST |
| StatusRules.InitializeCaptainManager | src/status/manager/captain.py:61-124 | the captain manager carries exactly the captain rule table over the captain statuses |
| StatusRules.CaptainFirstRule | src/status/manager/captain.py:76-122 | the first captain rule matching a move is the table's rule for it, if any |
| StatusRules.CaptainRuleShape | src/status/manager/captain.py:76-122 | every captain rule lists manage_team and runs the reason validator; all but the DISBANDED rules also the team-permission validator |
| StatusRules.CaptainNoRule | src/status/manager/captain.py:76-122 | a captain move matches no rule exactly when the table lacks it |
| StatusRules.CaptainPasses | src/status/manager/captain.py:13-122 | a captain move passes exactly when the table has it, manage_team is held globally, the reason is not blank and, except for DISBANDED, the actor is a global team admin or the team's captain |
| StatusRules.CaptainRemovedStaysRemoved | src/status/manager/captain.py:76-122 | from REMOVED only DISBANDED matches a rule |
| StatusRules.ScopedCaptainRefused | src/status/manager/captain.py:76-122 | an actor whose grants are all scoped never passes a captain move |
| StatusRules.InitializeTeamManager | src/status/manager/team.py:4-61 | the team manager carries exactly the team rule table over the team statuses |
| StatusRules.TeamFirstRule | src/status/manager/team.py:29-59 | the first team rule matching a move is the table's rule for it, if any |
| StatusRules.TeamRuleShape | src/status/manager/team.py:29-59 | the deciding rule of a team move requires its permission and a reason, plus the always-true active-matches validator |
| StatusRules.TeamNoRule | src/status/manager/team.py:29-59 | a team move matches no rule exactly when the table lacks it |
| StatusRules.TeamPasses | src/status/manager/team.py:12-59 | a team move passes exactly when the table has it, the actor holds its permission globally and the reason is not blank |
| StatusRules.TeamEndStatuses | src/status/manager/team.py:29-59 | a DISBANDED or ARCHIVED team can only be ARCHIVED |
| StatusRules.InitializeJoinRequestManager | src/status/manager/join_request.py:104-142 | the join-request manager carries exactly the join rule table over the join statuses |
| StatusRules.JoinFirstRule | src/status/manager/join_request.py:114-141 | the first join rule matching a move is the table's rule for it, if any |
| StatusRules.JoinNoRule | src/status/manager/join_request.py:114-141 | a join-request move matches no rule exactly when the table lacks it |
| StatusRules.JoinPasses | src/status/manager/join_request.py:18-141 | a join-request move passes exactly when the table has it, the reason is not blank and the validators let the actor make it |
| StatusRules.JoinRuleVerdict | src/status/manager/join_request.py:18-141 | the deciding rule of a join move passes exactly when the reason is not blank and the actor may make it |
| StatusRules.JoinCreation | src/status/manager/join_request.py:77-120 | a new request can only become PENDING, exactly with a reason and no ACTIVE roster entry that season |
| StatusRules.JoinReopens | src/status/manager/join_request.py:77-120 | an APPROVED, REJECTED, CANCELLED or EXPIRED request is put back to PENDING by anyone giving a reason; no other move from there matches |
| MatchService.SubmitCheck | src/matches/service.py:71-94 | a submission passes exactly when the fixture exists, is IN_PROGRESS, both its teams exist and the player captains one of them; a missing fixture and a wrong status are reported as such |
| MatchService.SubmittedResult | src/matches/service.py:96-109 | the new result is for the fixture, submitted by the player, pending confirmation, not overridden, with the submitted scores |
| MatchService.SubmitResult | src/matches/service.py:71-112 | a refused submission says why and changes nothing; otherwise one new pending result is added under a fresh id |
| MatchService.OpposingTeam | src/matches/service.py:137-138 | a submitter whose id equals team 1's id makes team 2 the opposing team |
| MatchService.OpposingTeamIsTeam1 | src/matches/service.py:137-138 | a submitter whose id is not team 1's id (every player, since a player id is not a team id) leaves team 1 as the opposing team |
| MatchService.OpposingCaptainCheck | src/matches/service.py:126-142 | confirming or disputing passes exactly when the result exists and is pending, its fixture exists and the player captains the opposing team; a missing or settled result is reported as such |
| MatchService.Team1CaptainConfirmsOwnResult | src/matches/service.py:137-142 | a captain of team 1 passes the check on a result they submitted themselves, and a captain of team 2 alone does not |
| MatchService.ConfirmedBy | src/matches/service.py:144-146 | the result becomes CONFIRMED by the player; nothing else changes |
| MatchService.DisputedWith | src/matches/service.py:186-188 | the result becomes DISPUTED with the reason and evidence; nothing else changes |
| MatchService.CheckAllMapsConfirmed | src/matches/service.py:230-240 | true exactly when every result of the fixture is CONFIRMED |
| MatchService.CompleteIfAllConfirmed | src/matches/service.py:151-152 | when every result is confirmed, the fixture is completed (and its round possibly completed), and this fails exactly when the fixture is not IN_PROGRESS; otherwise nothing changes |
| MatchService.ConfirmResult | src/matches/service.py:120-155 | a refused confirmation says why and changes nothing; a success confirms the result and completes the fixture exactly when this was the last unconfirmed result |
| MatchService.DisputeResult | src/matches/service.py:161-192 | the result is the opposing-captain check; a success marks the result DISPUTED with its reason and evidence |
| MatchService.SettledResultsOnlyOverridden | src/matches/service.py:131-132 | confirmed and disputed results cannot be confirmed or disputed again |
| MatchService.Overridden | src/matches/service.py:213-219 | the override writes the scores and who overrode it and why, and makes the result CONFIRMED whatever its status was |
| MatchService.OverrideIdempotent | src/matches/service.py:213-219 | overriding twice with the same data is overriding once |
| MatchService.AdminOverrideResult | src/matches/service.py:199-228 | a missing result or fixture fails and changes nothing; a success overrides the result and completes the fixture exactly when every result is then confirmed |
| MatchService.AddMatchPlayer | src/matches/service.py:247-277 | the same checks, in the same order, as the fixture service's: a refusal changes nothing; a success adds the player under a fresh id |
| MatchService.MapsPartition | src/matches/service.py:329-331 | every map is won by one side or drawn, so the counts add up to the number of maps |
| MatchService.MatchSummaryOf | src/matches/service.py:317-338 | no summary for no results; otherwise the map count, the maps team 1 won and the maps team 2 won (draws for neither), the round totals of each side as sums of its scores, whether all maps are confirmed and whether any is disputed |
| MatchService.SummaryAppend | src/matches/service.py:317-338 | one more result adds one map, one map to its winner's count (none for a draw) and its scores to the round totals |
| MatchService.DisputeAppend | src/matches/service.py:317-338 | after one more result the summary has a dispute exactly when it had one or the new result is disputed |
| MatchService.RoundsNonNegative | src/matches/service.py:332-333 | with non-negative scores, each side's round total is non-negative |
| MatchModels.WinnerId | src/matches/models.py:65-72 | the side with the higher score wins, and equal scores give no winner |
| MatchModels.WinnerIsASide | src/matches/models.py:65-72 | the winner is always one of the two sides or none |
| MatchModels.WinnerIff | src/matches/models.py:65-77 | between two distinct teams, each side wins exactly when it scores more, and there is no winner exactly on a draw |
| MatchModels.WinnerWithoutSecondSide | src/matches/models.py:65-72 | without a second side, there is no winner exactly when team 2's score is at least team 1's, so "no winner" is weaker than "draw" |
| CompetitionData.NumberedRound | src/competitions/rounds/service.py:162-174 | the round found belongs to the tournament and has the number, and none is found exactly when no such round exists |
| CompetitionData.RoundFixtureList | src/competitions/rounds/service.py:189-197 | lists exactly the fixtures of the round |
| LegacyFixtures.CreateCheck | src/fixtures/service.py:46-63 | a request passes exactly when its date parses and both teams and the season exist; the first failing check, in the source's order, is the error |
| LegacyFixtures.CreateFixtureAsWrittenNeverCreates | src/fixtures/service.py:65-70 | as written, no request creates a fixture, and the requests that pass every check are exactly those that end in KeyError |
| LegacyFixtures.CreateFixtureAsWrittenExample | src/fixtures/service.py:46-70 | a well-formed request between two existing teams of an existing season ends in KeyError |
| LegacyFixtures.CreateFixture | src/fixtures/service.py:46-75 | as intended, a request that passes the checks creates the fixture between the two named teams in the named season at the parsed time, and any other request fails with its check's error |
| LegacyFixtures.CreateFixtureCorrectsAsWritten | src/fixtures/service.py:46-75 | the corrected operation refuses exactly what the written one refuses, for the same reason, and creates a fixture exactly where the written one raises KeyError |
| LegacyFixtures.Rotate | src/fixtures/service.py:148 | a rotation keeps the length |
| LegacyFixtures.RotateSlices | src/fixtures/service.py:148 | the rotation is [t[0]] + [t[-1]] + t[1:-1], a permutation of the list |
| LegacyFixtures.Rotated | src/fixtures/service.py:110-151 | any number of rotations keeps the length |
| LegacyFixtures.RotatedKeepsFirst | src/fixtures/service.py:148 | every rotation keeps the first entry in place and is a permutation |
| LegacyFixtures.Legs | src/fixtures/service.py:122-145 | every slot of two teams gives two fixtures |
| LegacyFixtures.RoundLegsMembers | src/fixtures/service.py:122-145 | a fixture of a round is a leg of a slot whose entries are both teams, and every such slot has both legs in the round |
| LegacyFixtures.SlotOf | src/fixtures/service.py:122-145 | every fixture of a round comes from one slot of two teams |
| LegacyFixtures.ReturnLegInRound | src/fixtures/service.py:125-145 | every fixture of a round has its return fixture, sides swapped, in the same round, one on the home date and one on the away date |
| LegacyFixtures.SlotsMatch | src/fixtures/service.py:122-145 | with no team listed twice, no fixture sets a team against itself, and fixtures of two slots that share a team are between the same two teams |
| LegacyFixtures.RoundIsMatching | src/fixtures/service.py:122-145 | with no team listed twice, each round is a matching: no team meets two opponents in one round, and none meets itself |
| LegacyFixtures.Rounds | src/fixtures/service.py:110-151 | the first c rounds are numbered 1 to c, in order, in the season, of the given type |
| LegacyFixtures.RoundsAt | src/fixtures/service.py:110-151 | entry k of the rounds is the round built in the k-th iteration |
| LegacyFixtures.Schedule | src/fixtures/service.py:103-151 | a padded list of n entries gives n - 1 rounds, and none for fewer than two entries |
| LegacyFixtures.RoundFixtures | src/fixtures/service.py:122-145 | the inner loop gives both legs of every slot that is not a bye, slot by slot |
| LegacyFixtures.RoundRobinRounds | src/fixtures/service.py:103-151 | the group-stage loop gives the specified schedule |
| LegacyFixtures.RoundLoop | src/fixtures/service.py:110-151 | the round loop gives the first n - 1 rounds |
| LegacyFixtures.PlayRound | src/fixtures/service.py:110-151 | one iteration adds round k, rotates the list once more and moves the date on a week |
| LegacyFixtures.RotateDistinct | src/fixtures/service.py:148 | a rotation keeps every team in exactly one place |
| LegacyFixtures.RotatedDistinct | src/fixtures/service.py:148 | any number of rotations keeps every team in exactly one place |
| LegacyFixtures.ScheduleRoundsAreMatchings | src/fixtures/service.py:103-151 | with no team listed twice, every round is a matching, and every fixture on the round's home date has its return fixture, sides swapped, 7(n - 1) days later in the same round |
| LegacyFixtures.CreateRoundRobin | src/fixtures/service.py:91-157 | fewer than two teams is an error; otherwise the group-stage schedule of the teams padded with a bye: n + (n mod 2) - 1 rounds |
| LegacyFixtures.CreateRoundRobinUntyped | src/fixtures/utils.py:22-85 | the utilities version checks no minimum and its rounds carry no type; fewer than two teams play no fixture |
| LegacyFixtures.NoPairsWithBye | src/fixtures/utils.py:22-85 | a single team padded with a bye plays nobody |
| LegacyResults.PointsStep | src/fixtures/service.py:178-193 | one more result adds what it is worth to each team (3 for a win, 1 each for a draw) and appends its new teams in order |
| LegacyResults.AppearanceTeams | src/fixtures/service.py:184-185 | a team appears in the dictionary exactly when it played one of the results, and only once |
| LegacyResults.AppearanceDistinct | src/fixtures/service.py:184-185 | no team appears twice |
| LegacyResults.AppearancePlayed | src/fixtures/service.py:184-185 | the teams that appear are those that played |
| LegacyResults.Items | src/fixtures/service.py:196 | one item per team of the dictionary |
| LegacyResults.TallyStep | src/fixtures/service.py:178-193 | crediting the teams of one more result keeps the dictionary equal to the points of the results so far |
| LegacyResults.Credit | src/fixtures/service.py:184-193 | both teams of the result get an entry, 0 when they had none, and the result's points are added to them |
| LegacyResults.DetermineTeamScores | src/fixtures/service.py:175-197 | the loop and the sort give the dictionary's items sorted by points, highest first |
| LegacyResults.RankingCorrect | src/fixtures/service.py:175-197 | the ranking lists every team that played exactly once with its points, in non-increasing order of points, a permutation of the items, with teams level on points in the order they first appeared |
| LegacyResults.ItemsMembers | src/fixtures/service.py:175-197 | the rows of the dictionary are exactly the teams that played, with their points |
| LegacyResults.RankingTeamsDistinct | src/fixtures/service.py:175-197 | no team has two rows in the ranking |
| LegacyResults.WinnersAsWritten | src/fixtures/service.py:199-213 | as written, one winner per fixture when the winners are found |
| LegacyResults.WinnersAsWrittenIff | src/fixtures/service.py:199-213 | as written, the winners are found exactly when every fixture, byes included, has a result that is not a draw, and each winner is the side that scored more |
| LegacyResults.DetermineWinnersAsWritten | src/fixtures/service.py:199-213 | the written loop gives the written winners |
| LegacyResults.WinnersErrExtends | src/fixtures/service.py:199-213 | once a prefix has an undecided fixture, so has the whole list |
| LegacyResults.ByeStopsNextRoundAsWritten | src/fixtures/service.py:199-213 | as written, the bye fixture of a three-team draw stops the next round, whatever the other result |
| LegacyResults.Winners | src/fixtures/service.py:199-213 | as intended, one winner per fixture when the winners are found |
| LegacyResults.WinnersIff | src/fixtures/service.py:199-213 | as intended, the winners are found exactly when every fixture is a bye or has a result that is not a draw; each winner is a side of its fixture, the team with the bye or the side that scored more |
| LegacyResults.ByeAdvances | src/fixtures/service.py:199-213 | as intended, the top seed goes through on its bye where the written version fails |
| LegacyResults.WinnersAgreeWithoutByes | src/fixtures/service.py:199-213 | without byes the two versions agree |
| LegacyResults.DetermineWinners | src/fixtures/service.py:199-213 | the corrected loop gives the intended winners |
| LegacyResults.WinnersPrefixErr | src/fixtures/service.py:199-213 | once a prefix has an unsettled fixture, so has the whole list |
| LegacyResults.GenerateKnockoutFixtures | src/fixtures/service.py:215-262 | a KNOCKOUT round with the given number and the seeds' draw |
| LegacyResults.DrawShape | src/fixtures/service.py:215-262 | the draw has floor(m/2) + m mod 2 fixtures: fixture q sets the seed after the bye, q + m mod 2, at home against seed m - 1 - q, and the top seed's bye comes last |
| LegacyResults.PlaceInjective | src/fixtures/service.py:237-260 | different sides of different fixtures come from different seeds |
| LegacyResults.SideSeed | src/fixtures/service.py:237-260 | each side of a fixture is the seed at its place |
| LegacyResults.DrawCoversSeeds | src/fixtures/service.py:215-262 | with distinct seeds, every seed is drawn in exactly one fixture, only seeds are drawn and no fixture sets a team against itself |
| LegacyResults.DrawHasEverySeed | src/fixtures/service.py:215-262 | every seed is drawn |
| LegacyResults.DrawOnlySeeds | src/fixtures/service.py:215-262 | only seeds are drawn |
| LegacyResults.DrawOnce | src/fixtures/service.py:215-262 | distinct seeds are drawn once each |
| LegacyResults.DrawNoSelf | src/fixtures/service.py:215-262 | distinct seeds never meet themselves |
| LegacyResults.ScheduleKnockoutRound | src/fixtures/service.py:264-277 | undecided previous fixtures are an error; a single winner ends the tournament; otherwise the winners are drawn into the next round |
| LegacyResults.NextRoundSize | src/fixtures/service.py:264-277 | a settled round of m fixtures is followed by one of ceil(m/2) fixtures |
| LegacyResults.Seeds | src/fixtures/service.py:290-305 | the teams of the ranking, best first |
| LegacyResults.InitiateKnockout | src/fixtures/service.py:290-311 | the group-stage ranking seeds knockout round 1 |
| LegacyResults.SeedsAreTeams | src/fixtures/service.py:290-305 | the seeds are the teams that played, each once |
| LegacyResults.FirstKnockoutRoundCoversTeams | src/fixtures/service.py:290-311 | the first knockout round draws exactly the group-stage teams, each in exactly one fixture |
| LegacyResults.ResultsStore.constructor | src/fixtures/service.py:312 | the store starts with no result |
| LegacyResults.ResultsStore.ResultFor | src/fixtures/service.py:323-326 | a result is found exactly when the fixture has one, and it is that fixture's |
| LegacyResults.ResultsStore.AddResult | src/fixtures/service.py:328-342 | a fixture that has a result gets nothing and keeps it; otherwise the new result is stored, unconfirmed unless asked otherwise |
| LegacyResults.ResultsStore.ConfirmResult | src/fixtures/service.py:344-354 | the fixture's result is marked confirmed and nothing else changes; none when there is no result |
| LegacyResults.TeamsWithMinPlayersUtils | src/fixtures/utils.py:8-20 | every qualifying team has more than the minimum of distinct confirmed players in the season |
| LegacyResults.TeamsWithMinPlayersUtilsExact | src/fixtures/utils.py:8-20 | a team qualifies exactly when it has more than the minimum of distinct confirmed players, and raising the bar never lets a team in |
| LegacySeasons.SeasonIndex | src/seasons/service.py:24-27 | the first row with that id is found exactly when some row has it |
| LegacySeasons.SeasonNamed | src/seasons/service.py:29-36 | a season is found exactly when some season has the name, and it is one of the seasons, with that name |
| LegacySeasons.ActiveSeason | src/seasons/service.py:51-59 | no setting means no active season; otherwise the active season is a season with the setting's name, found whenever one exists |
| LegacySeasons.GroupStagePlayed | src/seasons/service.py:61-65 | the group stage counts as played exactly when every group-stage fixture has a result |
| LegacySeasons.League.constructor | src/seasons/service.py:11-14 | the league starts with no season and no active-season setting |
| LegacySeasons.League.CreateNewSeason | src/seasons/routes.py:17-31 | a name already in use is refused and nothing changes; otherwise one NOT_STARTED season is appended; stages only move forward and none becomes FINISHED |
| LegacySeasons.League.SetActiveSeason | src/seasons/routes.py:60-78 | an unknown name is refused and the setting is kept; otherwise the setting names the season and the active season becomes that season |
| LegacySeasons.League.GenerateGroupStage | src/seasons/routes.py:80-98 | an unknown season or one that is not NOT_STARTED is refused; a generation failure leaves the season as it was; otherwise the round-robin schedule is returned and only that season moves to GROUP_STAGE |
| LegacySeasons.League.StartKnockout | src/seasons/routes.py:110-130 | only a GROUP_STAGE season whose group stage is played starts its knockout: the ranking seeds knockout round 1 and only that season moves to KNOCKOUT_STAGE |
| LegacySeasons.League.CreateNextRound | src/seasons/routes.py:132-148 | only a KNOCKOUT_STAGE season with a knockout round gets a next round: undecided fixtures are refused, a single winner ends it, otherwise the winners are drawn into round n + 1; no stage changes |
| SeasonService.IndexOf | src/competitions/season/service.py:91-99 | the first row with that id is found exactly when some row has it |
| SeasonService.ActiveSeason | src/competitions/season/service.py:124-131 | no active season exactly when no season is IN_PROGRESS; otherwise an IN_PROGRESS season of the table |
| SeasonService.ActiveSeasonIsFirst | src/competitions/season/service.py:124-131 | the active season is the first IN_PROGRESS row: every row before it is in another state |
| SeasonService.AllSeasonsCorrect | src/competitions/season/service.py:111-122 | the listing holds exactly the seasons the filter admits (COMPLETED ones only when asked), as often as in the table, newest first, seasons created at the same time in table order |
| SeasonService.FirstNamed | src/competitions/season/service.py:101-109 | a season is found exactly when one has the name, and it has that name |
| SeasonService.SeasonTable.constructor | src/competitions/season/service.py:111-122 | the table starts empty |
| SeasonService.SeasonTable.ByName | src/competitions/season/service.py:101-109 | a season is found exactly when one in the table has the name, and it is that season |
| SeasonService.SeasonTable.CreateSeason | src/competitions/season/service.py:12-30 | a name in use is refused and the table is kept; otherwise one NOT_STARTED season is appended; distinct ids stay distinct |
| SeasonService.SeasonTable.Transition | src/competitions/season/service.py:32-89 | a missing season and a season in the wrong state are refused with the table kept; otherwise only that season's state changes |
| SeasonService.SeasonTable.StartSeason | src/competitions/season/service.py:32-49 | succeeds exactly on a NOT_STARTED season, which becomes IN_PROGRESS, nothing else changing |
| SeasonService.SeasonTable.CompleteSeason | src/competitions/season/service.py:51-70 | succeeds exactly on an IN_PROGRESS season, which becomes COMPLETED, nothing else changing |
| SeasonService.SeasonTable.ReopenSeason | src/competitions/season/service.py:72-89 | succeeds exactly on a COMPLETED season, which becomes IN_PROGRESS, nothing else changing |
| RoundRobinCover.RotatedAt | src/fixtures/service.py:148 | after k rotations the first entry is still first and entry p stands k places further right, wrapping round past the end |
| RoundRobinCover.PlaysIffMirror | src/fixtures/service.py:122-145 | in one round two distinct teams of a list without repetition meet exactly when their places add up to n - 1 |
| RoundRobinCover.MirrorUnique | src/fixtures/service.py:110-151 | with an even padded length, two entries are mirror images in at most one round |
| RoundRobinCover.MirrorExists | src/fixtures/service.py:110-151 | every two distinct entries are mirror images in some round |
| RoundRobinCover.ScheduleFixturesAt | src/fixtures/service.py:110-151 | round k is played with the list rotated k times, home legs k weeks after the start and return legs n - 1 weeks after those |
| RoundRobinCover.PlaysInRound | src/fixtures/service.py:110-151 | in round k two entries meet exactly when their rotated places are mirror images |
| RoundRobinCover.WithByeDistinct | src/fixtures/service.py:97-99 | padding a list of distinct teams with the bye keeps the teams distinct |
| RoundRobinCover.CompleteRoundRobin | src/fixtures/service.py:91-157 | for two distinct teams there is exactly one group-stage round in which the first is drawn at home against the second |
| MapPicker.Matches | src/fixtures/MapPicker/state_machine.py:32 | the places of exactly the maps with that name, in pool order |
| MapPicker.MapIndex | src/fixtures/MapPicker/state_machine.py:31-36 | as intended, a map is found exactly when it is the only map of the pool with that name, and then that map |
| MapPicker.FoundByName | src/fixtures/MapPicker/state_machine.py:31-36 | in a pool whose names do not repeat, every map is found by its name |
| MapPicker.LookupOfOnlyMapAsWritten | src/fixtures/MapPicker/state_machine.py:31-36 | on a one-map pool the intended lookup finds the map while the written one raises |
| MapPicker.PickerModel.constructor | src/fixtures/MapPicker/state_machine.py:14-22 | the pool and its saved copy are the maps given, team 1 has the turn, nothing is picked, banned or finalized |
| MapPicker.PickerModel.ResetPicksBans | src/fixtures/MapPicker/state_machine.py:24-29 | the pool is restored from the saved copy, team 1 has the turn again, and the picked and banned lists are emptied |
| MapPicker.PickerModel.BanMap | src/fixtures/MapPicker/state_machine.py:38-42 | the named map leaves the pool and is appended to the banned list with the ban tag; the picked list, the turn and the finalized flag are kept; every map is still in exactly one list |
| MapPicker.PickerModel.Pick | src/fixtures/MapPicker/state_machine.py:148-153 | the named map leaves the pool and is appended to the picked list with the pick tag; the banned list, the turn and the finalized flag are kept |
| MapPicker.PickerModel.Locate | src/fixtures/MapPicker/state_machine.py:31-36 | in a valid picker every pool name is found by the lookup |
| MapPicker.PickerModel.RecordSide | src/fixtures/MapPicker/state_machine.py:156-158 | only the last picked map changes, and it gets the side chosen |
| MapPicker.PickerModel.FinalizeMap | src/fixtures/MapPicker/state_machine.py:119-124 | the last pool map moves to the picked list with the knife round for sides, and the picker is finalized |
| MapPicker.PickerStateIsPermutation | src/fixtures/MapPicker/state_machine.py:44-53 | the picker state lists the original pool rearranged, no map twice, as many maps as the original pool |
| MapPicker.TeamIndex | src/fixtures/MapPicker/state_machine.py:317-321 | a team is found exactly when one of the two has the name, team 1 first |
| MapPicker.TeamOf | src/fixtures/MapPicker/state_machine.py:323-327 | a team is found exactly when one of the two lists holds the connection, team 1 first |
| MapPicker.JoinedKeepsTeams | old_code/fixtures/MapPicker/state_machine.py:472-483 | joining as intended keeps each connection on at most one team, puts a connection on no team into the first team with the name asked for, and moves nobody else |
| MapPicker.JoinFirstTeamAsWritten | src/fixtures/MapPicker/state_machine.py:380-391 | joining team 1 by its name: as written the connection stays on no team, as intended it is on team 1 |
| MapPicker.SwitchedKeepsTeams | src/fixtures/MapPicker/state_machine.py:393-404 | switching keeps each connection on at most one team, ignores a connection on no team, moves the connection to the other team when the names differ, and moves nobody else |
| MapPicker.PickerMachine.constructor | src/fixtures/MapPicker/state_machine.py:235-256 | a lobby in `ready` over the picker given, the table chosen by the mode, and two empty teams named after the picker's teams |
| MapPicker.PickerMachine.StartMapPicker | src/fixtures/MapPicker/state_machine.py:259-263 | from `ready` a BO3 lobby enters its first pick; a BO1 lobby fails on the missing pick phase in the current version and starts banning in the older one (old_code/fixtures/MapPicker/state_machine.py:312-325); elsewhere the trigger is refused |
| MapPicker.PickerMachine.Ban | src/fixtures/MapPicker/state_machine.py:65-67 | a ban trigger not declared in the state is refused; with the map absent or one map left it is refused and nothing changes; otherwise the map is banned with the tag of the team whose turn it is, the turn passes, and at two maps the last one becomes the decider and the machine reaches its final state; older trigger names at old_code/fixtures/MapPicker/state_machine.py:69-71 |
| MapPicker.PickerMachine.BanAndPass | src/fixtures/MapPicker/state_machine.py:126-131 | a ban leaving more than one map: the map is banned, the turn passes and the machine moves to the other waiting state |
| MapPicker.PickerMachine.FinalBan | src/fixtures/MapPicker/state_machine.py:126-134 | a ban of one of the last two maps: the other is the decider with the knife round, the picker is finalized and the machine reaches its final state |
| MapPicker.PickerMachine.Pick | src/fixtures/MapPicker/state_machine.py:88-89 | a pick trigger not declared in the state is refused; a map not in the pool is refused with nothing changed; otherwise the map is picked with the tag of the picking team and the other team chooses a side; older trigger names at old_code/fixtures/MapPicker/state_machine.py:88-89 |
| MapPicker.PickerMachine.ChooseSide | src/fixtures/MapPicker/state_machine.py:90-91 | a side trigger not declared in the state is refused; otherwise the side goes on the last picked map and team 1's side choice opens the banning phase |
| MapPicker.PickerMachine.Abort | src/fixtures/MapPicker/state_machine.py:286-291 | from any state, back to `ready` with the picks and bans reset |
| MapPicker.PickerMachine.JoinTeam | src/fixtures/MapPicker/state_machine.py:306-311 | only in `ready`; the current version joins as written, the older one as intended |
| MapPicker.PickerMachine.SwitchTeams | src/fixtures/MapPicker/state_machine.py:299-304 | only in `ready`; the connection moves to the other team |
| MapPicker.FinishedSeries | src/fixtures/MapPicker/state_machine.py:77-96 | a finished series has an empty pool, three maps picked in BO3 and one in BO1, and every other map banned |
| MapPicker.PickFirst | src/fixtures/MapPicker/state_machine.py:88-89 | picking the first pool map removes it from the pool, appends it to the picked list and moves to the other team's side choice |
| MapPicker.PickFirstThenSide | src/fixtures/MapPicker/state_machine.py:88-91 | a pick and the side chosen after it lead to the next pick or to the banning phase |
| MapPicker.OpeningPicks | test/state_machine_test.py:74-86 | after the two opening picks of the test series, map1 and map2 are picked and map3, map4, map5 are left for banning |
| MapPicker.BanFirst | src/fixtures/MapPicker/state_machine.py:65-67 | banning the first pool map passes the turn, or with two maps left makes the other one the decider |
| MapPicker.ClosingBans | test/state_machine_test.py:87-95 | banning map3 and map4 leaves map5 as decider and the machine done |
| MapPicker.BestOfThreeSeries | test/state_machine_test.py:74-95 | the BO3 series of the test ends with map1, map2 and map5 played and the machine done |
| MapPicker.ConnMgr.constructor | src/fixtures/MapPicker/state_machine.py:175-186 | a connection starts listening, numbered 0, with no client id |
| MapPicker.ConnMgr.Accept | src/fixtures/MapPicker/state_machine.py:177 | only a listening connection is accepted; the number and client id are kept |
| MapPicker.ConnMgr.NewMsg | src/fixtures/MapPicker/state_machine.py:210-217 | a message is taken only when accepted or established; identification moves an accepted connection to established with the command's number and client id; any other command must carry the next number, which becomes the last, or it is an invalid ack with the number got and the one expected and nothing changes |
| MapPicker.ConnMgr.Disconnect | src/fixtures/MapPicker/state_machine.py:180-181 | an accepted or established connection closes; in any other state the trigger is refused |
| MapPicker.MapByNameAsWritten | src/fixtures/MapPicker/state_machine.py:31-36 | as written, the length is taken of a comparison, so every lookup raises, whatever the pool |
| MapPools.VotesAfter | src/competitions/map_pool/service.py:104-120 | one more vote adds one to its own team's tally in its own pool and leaves every other tally alone |
| MapPools.VoteKeyOrder | src/competitions/map_pool/service.py:156-158 | in the descending vote order a count ranks at least as high as another exactly when it is missing or both are present and it is not smaller |
| MapPools.Ranked | src/competitions/map_pool/service.py:156-160 | the pool's maps, each once, in non-increasing order of votes, a missing count first |
| MapPools.KeepCount | src/competitions/map_pool/service.py:163 | the length of the slice of the first n maps, a negative n counting from the end |
| MapPools.KeptOutrankDropped | src/competitions/map_pool/service.py:155-167 | every map kept has at least as many votes as every map deleted |
| MapPools.Without | src/competitions/map_pool/service.py:166-167 | the pool-map table without exactly the listed maps of the pool, every other row unchanged |
| MapPools.WithoutStep | src/competitions/map_pool/service.py:166-167 | deleting one more map removes exactly that row |
| MapPools.VoteRefusal | src/competitions/map_pool/service.py:93-112 | a vote is accepted exactly when the pool exists, is VOTING, its window is not over and the team has votes left; each refusal names the first check that fails |
| MapPools.Tallied | src/competitions/map_pool/service.py:122-132 | the voted map's count, a missing one counting as 0, goes up by one when the map is in the pool; no other row changes and no row is added |
| MapPools.FinalizeRefusal | src/competitions/map_pool/service.py:145-153 | finalizing goes ahead exactly when the pool exists, is VOTING and its window is over; each refusal names the first check that fails |
| MapPools.DeleteMaps | src/competitions/map_pool/service.py:166-167 | the deletion loop leaves the table without the listed maps of the pool |
| MapPools.VoteKeepsBudget | src/competitions/map_pool/service.py:104-120 | a vote the team has budget for keeps every team within the votes its pool allows |
| MapPools.VoteKeepsConsistent | src/competitions/map_pool/service.py:84-137 | an accepted vote and its tally keep the three tables consistent |
| MapPools.FinalizeKeepsConsistent | src/competitions/map_pool/service.py:139-176 | finalizing keeps the three tables consistent |
| MapPools.MapPoolService.constructor | src/competitions/map_pool/service.py:21 | the service starts with no pool, no pool map and no vote |
| MapPools.MapPoolService.CreateAdminMapPool | src/competitions/map_pool/service.py:22-54 | a pool with an unknown map is refused, the unknown map named, and so is one listing a map twice; otherwise a FINALIZED admin pool is created holding exactly the listed maps, each with 0 votes, and nothing else changes |
| MapPools.MapPoolService.CreateVotingPool | src/competitions/map_pool/service.py:56-82 | a TEAM_VOTING pool in VOTING whose window runs from now for the duration, with no maps and no votes |
| MapPools.MapPoolService.CastTeamVote | src/competitions/map_pool/service.py:84-137 | a refused vote changes nothing; an accepted one is recorded, adds one to the team's tally and tallies the map; no team exceeds its budget |
| MapPools.MapPoolService.FinalizeVotingPool | src/competitions/map_pool/service.py:139-176 | a refused finalize changes nothing; otherwise the maps ranked after the first maps_to_select are deleted and the pool becomes FINALIZED at now |
| JoinRequests.ActiveRequest | src/teams/join_request/service.py:182-195 | a request is found exactly when the player has a PENDING request for the season, and then the first one |
| JoinRequests.TeamRequests | src/teams/join_request/service.py:156-167 | exactly the team's requests, resolved ones only when asked |
| JoinRequests.PlayerRequests | src/teams/join_request/service.py:169-180 | exactly the player's requests, resolved ones only when asked |
| JoinRequests.Swept | src/teams/join_request/service.py:197-216 | exactly the PENDING requests created before the cutoff become EXPIRED and stamped now; every other row is kept |
| JoinRequests.ExpirableCountStep | src/teams/join_request/service.py:197-216 | the count of expirable requests grows by one for each further expirable row |
| JoinRequests.SweepIdempotent | src/teams/join_request/service.py:197-216 | after a sweep nothing is left to expire for the same cutoff, so a second sweep changes nothing |
| JoinRequests.SweepKeepsOnePending | src/teams/join_request/service.py:197-216 | the sweep keeps at most one PENDING request per player and season |
| JoinRequests.CleanupAsWritten | src/teams/join_request/service.py:197-216 | as written the sweep succeeds, returning 0, exactly when nothing is expirable |
| JoinRequests.CleanupCounterexample | test/teams/test_joining_workflow.py:344-378 | a pending request ten days old with a seven-day expiry: as written the sweep raises, as intended that request is EXPIRED |
| JoinRequests.JoinRequestService.constructor | src/teams/join_request/service.py:21-23 | the service starts with no request, over the roster service given |
| JoinRequests.JoinRequestService.CreateRequest | src/teams/join_request/service.py:42-70 | refused while the player has a PENDING request for the season, then while the player has an ACTIVE roster entry that season; otherwise one PENDING request is appended; at most one PENDING request per player and season |
| JoinRequests.JoinRequestService.ApproveRequest | src/teams/join_request/service.py:77-105 | only a PENDING request; it becomes APPROVED with the captain's response and the player goes on the roster; a roster refusal rolls the whole request back; the pending and active invariants are kept |
| JoinRequests.JoinRequestService.RejectRequest | src/teams/join_request/service.py:112-130 | only a PENDING request; it becomes REJECTED with the captain's response and nothing else changes |
| JoinRequests.JoinRequestService.CancelRequest | src/teams/join_request/service.py:137-154 | only the requester, then only while PENDING; it becomes CANCELLED and nothing else changes |
| JoinRequests.JoinRequestService.CleanupExpiredRequests | src/teams/join_request/service.py:197-216 | as intended, the table becomes the swept table and the number of requests expired is returned |
| Captains.GetCaptain | src/teams/service/captain.py:151-161 | a record of the player for the team is found exactly when one exists; otherwise the error |
| Captains.ActiveCaptains | src/teams/service/captain.py:163-179 | exactly the team's ACTIVE records |
| Captains.CaptainPlayers | src/teams/service/captain.py:202-236 | exactly the players with a record for the team in the given statuses, never more than the records |
| Captains.CaptainQueriesAgree | src/teams/service/captain.py:202-251 | the captain test holds exactly for the players the ACTIVE/TEMPORARY listing names, and every such player is also in the listing by team id, which adds PENDING |
| Captains.InactiveRecordNoCaptain | src/teams/service/captain.py:238-251 | a player whose records are all REMOVED, DISBANDED or PENDING is not a captain |
| Captains.CaptainAttempt | src/status/manager/captain.py:13-122 | a captain status change succeeds exactly when the table has the move, the actor holds manage_team at global scope, the reason is not blank, and, except for a move to DISBANDED, the actor is a global team admin or a captain of the record's team |
| Captains.ReactivationRefused | src/status/manager/captain.py:61-122 | the REMOVED to ACTIVE move is refused: the table has no rule for it |
| Captains.RemovalOnlyFromActive | src/status/manager/captain.py:61-122 | only an ACTIVE record can be moved to REMOVED |
| Captains.ChangeCaptainStatusAsWritten | src/teams/service/captain.py:130-149 | as written every captain status change fails, for any record, move and actor, without a rule being consulted |
| Captains.DisbandCaptainCounterexample | src/teams/service/captain.py:140-149 | disbanding an ACTIVE captain record by a team manager is accepted by the captain rules and refused by the written call |
| Captains.CaptainService.constructor | src/teams/service/captain.py:26-44 | the captain manager is registered beside the others, which stay as they were |
| Captains.CaptainService.ChangeCaptainStatus | src/teams/service/captain.py:130-149 | the record at the place given changes exactly as the transition service decides, with its history entry |
| Captains.CaptainService.CreateCaptain | src/teams/service/captain.py:55-128 | a record that is not REMOVED is refused; a REMOVED one is reused and its reactivation refused; otherwise a new ACTIVE record is appended and the player gets the team_captain role at the team's scope; no player gets two records for a team |
| Captains.CaptainService.Reactivate | src/teams/service/captain.py:103-126 | reactivating a REMOVED record grants the role, is refused by the status table and is rolled back, leaving the roles and history as they were |
| Captains.CaptainService.RemoveCaptain | src/teams/service/captain.py:181-200 | the role at the team's scope is taken away, then the record moves to REMOVED and is kept; a refusal at either step changes nothing |
| Rosters.TeamRoster | src/teams/service/roster.py:61-93 | exactly the team's entries for the season that the status filter admits: all with include_all, the listed statuses when given, ACTIVE otherwise |
| Rosters.ActiveCount | src/teams/service/roster.py:95-108 | as many as the default listing has entries; zero exactly when the team has no ACTIVE entry that season |
| Rosters.ValidateRosterSize | src/teams/service/roster.py:238-255 | valid exactly when the ACTIVE count is within the bounds; below the minimum or above the maximum it reports the count and the bound crossed |
| Rosters.TeamsWithMinPlayers | src/teams/service/roster.py:142-156 | exactly the teams with an ACTIVE entry in the season and at least the minimum of ACTIVE entries |
| Rosters.PlayerRows | src/teams/service/roster.py:186-220 | exactly the player's entries whose team exists, in table order |
| Rosters.CurrentEntry | src/teams/service/roster.py:186-236 | the first row in the active season on an ACTIVE team with an ACTIVE entry, none exactly when no row is such |
| Rosters.PreviousEntries | src/teams/service/roster.py:186-236 | exactly the past rows other than the current one |
| Rosters.Histories | src/teams/service/roster.py:222-236 | one history record per entry, in order |
| Rosters.RosterHistory | src/teams/service/roster.py:186-236 | no rows give an empty history; with rows a missing active season is an error; otherwise the current entry and the previous entries, absent rather than empty |
| Rosters.CurrentNotPrevious | src/teams/service/roster.py:186-236 | the current entry is never also a previous one, and every past row but the current one is |
| Rosters.HistoryOmits | src/teams/service/roster.py:186-236 | a PENDING or SUSPENDED entry of the active season on an ACTIVE team, or an ACTIVE one after the first, appears nowhere in the history |
| Rosters.RosterAttempt | src/status/manager/roster.py:16-161 | a roster status change succeeds exactly when the table has the move, the reason is not blank and the actor may make it: a global team admin any move, the entry's player only ACTIVE to REMOVED, another player who captains the team the captain moves; a success writes the status, reason, time and actor |
| Rosters.AddAuthority | src/status/manager/roster.py:16-98 | adding a player passes exactly for a global team admin or a captain of the team who is not the added player |
| Rosters.RemoveAuthority | src/status/manager/roster.py:16-98 | removing an ACTIVE entry passes exactly when the reason is not blank and the actor is a global team admin, the entry's player or a captain of the team |
| Rosters.NoSelfSuspension | src/status/manager/roster.py:69-80 | a player who is not a global team admin cannot suspend or reactivate their own entry |
| Rosters.ChangeRosterStatusAsWritten | src/teams/service/roster.py:257-292 | as written every roster status change fails, for any entry, move and actor, without a rule being consulted |
| Rosters.LeaveTeamCounterexample | src/teams/service/roster.py:276-285 | a player leaving their own team is accepted by the roster rules and refused by the written call |
| Rosters.RosterService.constructor | src/teams/service/roster.py:30-42 | the roster manager is registered beside the others, which stay as they were |
| Rosters.RosterService.ChangeRosterStatus | src/teams/service/roster.py:257-296 | the entry at the place given changes exactly as the transition service decides, with its history entry |
| Rosters.RosterService.AddPlayerToRoster | src/teams/service/roster.py:298-343 | a player ACTIVE on any team that season is refused; otherwise a PENDING entry is created and moved to ACTIVE, and a refused move removes it again; no player gets two ACTIVE entries in a season |
| Rosters.RosterService.RemovePlayerFromTeamRoster | src/teams/service/roster.py:345-375 | without an ACTIVE entry of the player on the team that season nothing changes; otherwise that entry moves to REMOVED and is kept |
| Rosters.RosterService.SuspendRosterMember | src/teams/service/roster.py:377-395 | the entry moves to SUSPENDED as the transition service decides; at most one ACTIVE entry per player and season is kept |
| Rosters.RosterService.ReactivateRosterMember | src/teams/service/roster.py:397-415 | the entry moves to ACTIVE as the transition service decides |
| Teams.AllTeams | src/teams/service/team.py:54-72 | the ACTIVE teams, or every team with include_disbanded, each as often as in the table, newest first |
| Teams.TeamTable | src/teams/service/team.py:370-374 | every team of the table can be looked up by its id |
| Teams.PlayerTeams | src/teams/service/team.py:370-398 | no rows give an empty history; with rows a missing active season is an error; the current team is present exactly when one row of the active season is on an ACTIVE team, and then it is that row; a previous list is never empty |
| Teams.CountIfSplit | src/teams/service/team.py:381-382 | two complementary filters together count every row |
| Teams.RowsPartitioned | src/teams/service/team.py:381-382 | every row of the player is a candidate for the current team or a former row, never both, and the two lists together have as many rows as the player has |
| Teams.Updated | src/teams/service/team.py:306-326 | the name changes only when given, the recruitment flag is set, the logo changes only for a non-empty path, the update time is now, and the id, status and creation time are kept |
| Teams.UpdateIdempotent | src/teams/service/team.py:306-326 | updating twice with the same data at the same time is updating once |
| Teams.TeamService.constructor | src/teams/service/team.py:26-34 | the service starts with no team, over the captain and roster services given |
| Teams.TeamService.CreateTeam | src/teams/service/team.py:162-201 | refused when the captain already has a record for the new team id; without an active season it fails; a refusal leaves the teams, captains and roster as they were; otherwise the team, its first captain and the captain's roster entry are added |
| Teams.TeamService.CreateCaptain | src/teams/service/team.py:203-236 | a player with any record for the team is refused and nothing changes; otherwise one record is appended; no player gets two records for a team |
| Teams.TeamService.RemoveCaptain | src/teams/service/team.py:255-263 | the record is deleted and the others stay in order |
| Teams.TeamService.UpdateTeam | src/teams/service/team.py:306-326 | only the team at the place given changes, as the update describes |
| Teams.TeamService.DisbandTeam | src/teams/service/team.py:335-357 | the team becomes DISBANDED with the time, reason and actor, whatever its status was; nothing else in it or the table changes |
| Admin.PlayerBans | src/admin/service.py:136-149 | `get_player_bans`: exactly the player's bans, restricted to ACTIVE ones unless inactive ones are asked for |
| Admin.PlayerAttempt | src/status/manager/player.py:7-92 | a player status change succeeds exactly when the player table has the move, the actor holds its permission globally and the reason is not blank; a success records the status, reason, time and actor |
| Admin.VerifyAuthority | src/status/manager/player.py:16-30 | a player awaiting verification is accepted or rejected exactly by an actor holding verify_users globally, with notes that are not blank |
| Admin.BanAuthority | src/status/manager/player.py:61-66 | a ban moves a player to BANNED exactly when they are ACTIVE or SUSPENDED, the actor holds manage_bans globally and the reason is not blank |
| Admin.BannedStaysBanned | src/status/manager/player.py:7-92 | no rule leads from BANNED to ACTIVE, so a BANNED player is never reactivated |
| Admin.BanPlayerAsWritten | src/admin/service.py:53-94 | as written, `ban_player` fails for every request: "Player not found" exactly for an unknown player, otherwise the status call with `entity=` raises |
| Admin.RevokeBanAsWritten | src/admin/service.py:95-134 | as written, `revoke_ban` refuses unknown and inactive bans and succeeds exactly when the player keeps another ACTIVE ban |
| Admin.BanCounterexample | src/admin/service.py:53-134 | an ACTIVE player banned by an admin with manage_bans: as written the ban fails while the intended status change passes; revoking the player's only ban fails too |
| Admin.TransitionCounterexample | src/status/service.py:96-116 | the ban of an ACTIVE player by an admin with manage_bans passes the intended transition service and fails in the written one |
| Admin.OutcomeOfChange | src/auth/service/status.py:25-58 | a status change of a known player succeeds exactly as the player table allows, and a success yields the player row with the new status, reason, time and actor |
| Admin.AdminService.constructor | src/auth/service/status.py:20-22 | the player transition manager is registered; the managers of other entity types stay |
| Admin.AdminService.ChangePlayerStatus | src/auth/service/status.py:25-58 | `change_player_status`: an unknown player is refused; otherwise the transition outcome, with the row and the history changed only on success and no other player touched |
| Admin.AdminService.VerifyPlayer | src/admin/service.py:23-51 | `verify_player`: an unknown player is refused with nothing changed; otherwise the status change with the admin notes as reason and the verification details as metadata |
| Admin.AdminService.BanPlayer | src/admin/service.py:53-94 | `ban_player` as intended: an ACTIVE ban is stored and the player moved to BANNED with the ban metadata; a refused move stores no ban |
| Admin.AdminService.RevokeBan | src/admin/service.py:95-134 | `revoke_ban` as intended: unknown or inactive bans are refused; the ban becomes REVOKED with actor and reason; the player returns to ACTIVE only when no other ACTIVE ban remains; a refused move rolls everything back |
| Admin.AdminService.AssignRole | src/admin/service.py:152-178 | `assign_role`: unknown player or role refused with nothing changed; a non-global scope without an id refused; otherwise exactly one assignment appended |
| Upload.ConfigOf | src/upload/service.py:18-39 | every upload type but tournament banners has a configuration, and all allow JPEG and PNG only |
| Upload.RequestRefusal | src/upload/service.py:46-56 | a request passes exactly when its type is configured, its content type allowed and its size at most the limit; each error exactly in its own case, in the source's order |
| Upload.LimitsNested | src/upload/service.py:20-39 | an avatar that passes also passes as a team logo and as a map image |
| Upload.FinalIdRefusalAsWritten | src/upload/service.py:90-94 | as written, every non-empty final id makes validation fail |
| Upload.FinalIdRefusal | src/upload/service.py:90-94 | as intended, a final id is refused exactly when it has a directory part |
| Upload.FinalIdCounterexample | src/upload/service.py:90-94 | "logo" fails as written but passes as intended; "teams/logo" is refused as a directory |
| Upload.KeptPath | src/upload/service.py:179-181 | `move_upload_if_temp` keeps the path exactly when the upload is not temporary |
| Upload.UploadService.CreateUploadToken | src/upload/service.py:58-85 | a refused request stores nothing; otherwise the request and its metadata are stored under the new state id and the token carries that id, the type's limits and the 30-minute lifetime |
| Upload.UploadService.ValidateUploadToken | src/upload/service.py:87-117 | a directory final id is refused with the store unchanged; otherwise the token is removed; an unknown token or a mismatching content type is refused; a match returns the stored request, so a token validates at most once |
| Upload.UploadService.constructor | src/upload/service.py:42-44 | the service starts with no pending upload |
| PermissionAudit.GlobalOfSpec | utils/permissions/auditor.py:80-88 | a permission is in the global set exactly when some GLOBAL-scoped role assignment of the player gives it |
| PermissionAudit.KeysMatch | utils/permissions/auditor.py:89-98 | the keys of the per-team (per-tournament) dictionary, in insertion order, are exactly the scope ids that have an entry |
| PermissionAudit.PermsOfKeys | utils/permissions/auditor.py:89-98 | a team (tournament) id gets an entry exactly when some assignment of that scope type names it |
| PermissionAudit.PermsOfEntry | utils/permissions/auditor.py:89-98 | the entry of a scope id holds exactly the permissions of the assignments naming it |
| PermissionAudit.KeysDistinct | utils/permissions/auditor.py:89-98 | no scope id is inserted twice into a permission dictionary |
| PermissionAudit.MissingKinds | utils/permissions/auditor.py:111-122 | the existence checks yield only "non-existent" issues of the scope they check |
| PermissionAudit.RedundantKinds | utils/permissions/auditor.py:128-144 | the conflict checks yield only the one redundancy issue of their scope |
| PermissionAudit.MissingOnce | utils/permissions/auditor.py:111-122 | over distinct keys, a key the table lacks yields exactly one "non-existent" issue and any other key none |
| PermissionAudit.RedundantCount | utils/permissions/auditor.py:128-144 | over distinct keys, as many redundancy issues as keys whose set holds the permission |
| PermissionAudit.MissingCount | utils/permissions/auditor.py:111-126 | in the issue list the existence checks and the conflict check build, each missing scope id is reported once |
| PermissionAudit.AuditMissing | utils/permissions/auditor.py:56-126 | the audit of a player reports a team (tournament) once as non-existent exactly when an assignment is scoped to it and the table lacks it; otherwise not at all |
| PermissionAudit.RedundantTeamCount | utils/permissions/auditor.py:128-137 | with a global manage_all_teams, one redundancy issue per team set holding manage_team; none without it |
| PermissionAudit.AuditRedundantTeams | utils/permissions/auditor.py:56-137 | the audit of a player reports one team redundancy per team whose assignments give manage_team when manage_all_teams is global, and none otherwise |
| PermissionAudit.PermissionAuditor.Exists | utils/permissions/auditor.py:146-162 | `_team_exists` / `_tournament_exists`: the answer is whether the table holds the id; a cached answer is returned without a lookup; the other cache is untouched |
| PermissionAudit.PermissionAuditor.MissingIssues | utils/permissions/auditor.py:111-122 | the existence loop yields one "non-existent" issue per key the table lacks, in key order, and keeps the caches sound |
| PermissionAudit.PermissionAuditor.RedundantIssues | utils/permissions/auditor.py:128-144 | one redundancy loop yields exactly the issues of the specification function |
| PermissionAudit.PermissionAuditor.Classify | utils/permissions/auditor.py:80-98 | the classification loop yields the role names, the global set and the per-team and per-tournament dictionaries the specification functions define |
| PermissionAudit.PermissionAuditor.AuditPlayer | utils/permissions/auditor.py:56-103 | an unknown player is refused ("not found"); a known one gets exactly the audit of their assignments against the teams and tournaments tables |
| PermissionAudit.PermissionAuditor.AuditsOfAt | utils/permissions/auditor.py:40-54 | the i-th result of the audit of all players is the audit of the i-th player |
| PermissionAudit.PermissionAuditor.AuditAllPlayers | utils/permissions/auditor.py:40-54 | one audit per player of the players table, in table order |
| PermissionReport.WithIssuesBound | utils/permissions/reporter.py:73-75 | the players with issues are no more than the players audited and no more than the issues found |
| PermissionReport.AllIssues | utils/permissions/reporter.py:75 | the issues of all results number exactly the total issue count |
| PermissionReport.ValuesUnionSpec | utils/permissions/reporter.py:83-86 | a name is in the union of a result's per-scope sets exactly when one of its keyed sets holds it |
| PermissionReport.GlobalUnionSpec | utils/permissions/reporter.py:78-82 | a name counts among the global permissions exactly when some audited player holds it globally |
| PermissionReport.ScopeUnionSpec | utils/permissions/reporter.py:78-86 | a name counts among the team (tournament) permissions exactly when some audited player holds it for some team (tournament) |
| PermissionReport.TallySpec | utils/permissions/reporter.py:103-106 | `issue_counts` holds exactly the occurring issues, each with its number of occurrences, and its insertion order lists each once |
| PermissionReport.CountStep | utils/permissions/reporter.py:105-106 | counting one more issue adds one to its count and appends it to the insertion order when new |
| PermissionReport.FrequenciesSum | utils/permissions/reporter.py:75-106 | the issue counts add up to the total number of issues |
| PermissionReport.RankingSpec | utils/permissions/reporter.py:109-114 | the ranking of `issue_counts.items()` is a permutation of them in non-increasing count order, each issue with its number of occurrences |
| PermissionReport.TopIssuesSpec | utils/permissions/reporter.py:109-115 | the top list holds min(5, distinct issues) entries, counts non-increasing, each issue with its number of occurrences |
| PermissionReport.TopIssuesOmitted | utils/permissions/reporter.py:109-115 | an occurring issue left out of the top list occurs no more often than any listed issue |
| PermissionReport.AddValues | utils/permissions/reporter.py:83-86 | one inner distribution loop adds the union of a result's keyed sets |
| PermissionReport.Distribution | utils/permissions/reporter.py:77-86 | the distribution loop computes the global, team and tournament name sets the specification functions define |
| PermissionReport.CountIssues | utils/permissions/reporter.py:104-106 | the inner frequency loop extends the counts and the insertion order by one result's issues |
| PermissionReport.Frequencies | utils/permissions/reporter.py:102-106 | the frequency loop yields the counts and the insertion order of all issues |
| PermissionReport.GenerateSummaryReport | utils/permissions/reporter.py:71-117 | the summary's figures: players audited, players with issues, total issues, the three distribution counts and the top five issues |

Members without a row are helpers, predicates and functions in which other members' contracts are stated, or lemmas that serve other proofs. By module: Access: Covers, Held, Verified, GlobalGrants, LinkedTo, PlayerGrants, UniquePermissionNames, NoRepeats, PermissionIds, PermissionNames, Elements, ElementsCard, UniqueTail, IntersectionSplit, AddedCard, PermissionsWithout, Unmatched, RolesWithout, AssignmentsWithout, MatchesAssignment, PermissionWithId, RoleIndex, RoleNamed, Unlinked, HasAllowedRole, IdsOf, LinkedToKept, RoleNamesOf; Accounts: UniqueAccounts; Admin: Track, Untrack, ScopeText, WellFormedRequest, NewBan, BanMetadata, RevokeReason, VerifyMetadata, ReasonText, Keyed, StatusOutcome, Changed, AdminService.Valid; PermissionAudit: Names, Distinct, Scoped, RoleNames, GlobalOf, KeysOf, PermsOf, Found, MissingOf, RedundantOf, DistinctInit, MissingLast, Audit, ConflictsOf, AllSame, Sound, PermissionAuditor.Valid, PermissionAuditor.constructor, PermissionAuditor.RolesOf, PermissionAuditor.AuditsOf; Captains: Track, Untrack, RecordOf, CaptainRecord, UniqueRecords, TeamCaptains, TeamCaptainsByTeamId, PlayerIsTeamCaptain, Changed, CaptainService.Valid; Common: CountIf, Filter, FirstWhere, CountIfSame, IdText, CountIfAppend, SumOf, IsMin, IsMax, MinExists, MaxExists, MinId, MaxId, FreshId, First, Ordered, AddedRows, MapsAgree, ProperSubsetCard, SubsetCard; CompetitionData: IsSide, Finished, AllFinished, RoundsNumbered, FixturesOf, CompetitionDb.constructor, CompetitionDb.TournamentRounds, CompetitionDb.FixtureResults, CompetitionDb.IsCaptain; FixtureService: WellFormed, InWindow, SidesDiffer, KeepsCompleted, IsLocked, SetsValue; JoinRequests: OpenFor, OnePendingPerSeason, Shown, NewRequest, Answered, Expirable, Cutoff, Expire, ExpirableCount; LegacyFixtures: AddDays, CreateFixtureAsWritten, RoundLegs, DistinctTeams, Sides, RoundOf, RoundAt; LegacyResults: Gain, Points, AddKey, Appearance, Played, ScoreKey, Tally, DistinctTeamRows, MultisetTwice, OnceInItems, Decided, Settled, Paired, Draw, Place, DrawnIn, FirstKnockoutDraw, ResultsStore.Valid, ConfirmedPlayers; LegacySeasons: StageNumber, Forward, NeverFinishes; MapPicker: Names, Distinct, Remove, NamesAppend, NamesRemove, NamesOfThree, MoveKeepsNames, MoveKeepsNamesLast, AtMostOnce, Twice, DistinctByCount, OnlyNamed, PickerModel.Valid, PickerModel.PickerState, BanTarget, PickTarget, SideTarget, FinalPhase, BanTag, PickTag, OnOneTeam, Joined, JoinedAsWritten, DistinctSplit, AppendFresh, FirstPlace, Switched, RemoveDistinct, PickerMachine.InStep, PickerMachine.Valid, Unplayed, FoundFirst, SideKeepsNames, FiveMapsDistinct, ConnMgr.Valid; MapPools: VotesOf, WithinBudget, CountOf, VoteKey, MapsIn, RankKey, Dropped, Settled, Consistent, MapPoolService.Valid; MatchModels: IsDraw, MapWinner; MatchService: WellFormed, ResultsOf, Team1Won, Team2Won, Drawn, AnyDisputed, Team1Score, Team2Score, RoundsAppend; PermissionReport: TotalIssues, WithIssues, ValuesUnion, GlobalUnion, KeysFor, PermsFor, ScopeSet, ScopeUnion, Tally, FirstSeen, SumCounts, SumIgnores, SumBump, Entries, EntriesAt, CountKey, Ranking, TopIssues, SummaryOf; Rosters: Track, Untrack, Listed, SuspendedPlayers, PendingPlayers, ActiveOn, PlayerEntryMatches, PlayerEntry, OneActivePerSeason, CurrentRow, PastRow, HistoryOf, Changed, NewEntry, AddMetadata, RosterService.Valid, RosterService.RosterStatusHistory; RoundRobinCover: Wrap, Pos, Plays; RoundService: SameShape, NumberedRoundShape, RoundsOf, Contiguous, PredecessorDone, Progressed, AllCompleted, StatusesOf, Later, Cascaded, Extended, Unplayed, UnplayedOf, ForfeitedAtDeadline; SeasonService: Unique, CreatedKey, Selected, AllSeasons; StableSort: Ge, GeTotalPreorder, SortedDesc, WithKey, Insert, SortDesc, InsertMultiset, InsertSorted, WithKeyAppend, WithKeyNone, InsertStable; Standings: Indexed, TeamTable.Snapshot, AddWin, AddLoss, Consistent, GoodStats, StatsBefore, RegularStep, RegularFold, RegularRounds, ThenRegularRounds, FinishedOnly, RegularRow, Unnamed, RegularTable, RegularKey, RegularStandings, Loses, Advances, GoodPlacements, KnockoutStep, KnockoutFold, KnockoutRounds, ThenKnockoutRounds, KnockoutRow, KnockoutTable, KnockoutKey, KnockoutStandings, TypeName; StatusFramework: Applies, FailureOf, ContextFor, EntryKey; StatusChecks: Text, IsSpace, Blank, GlobalTeamAdmin, TeamCaptainOf, CaptainRosterMove; StatusRules: PlayerRules, PlayerMovePermission, PlayerRuleIndex, HasAccess, RosterRules, RosterMove, RosterActorMay, RosterRuleIndex, CaptainRules, CaptainMove, CaptainRuleIndex, TeamRules, TeamMovePermission, TeamRuleIndex, JoinRules, JoinMove, JoinActorMay, JoinRuleIndex; GenerationStrategies: PlannedRound, BitLength, MatchFormatOf, PlannedFixture, RoundRobinPairing, FirstPlayedPair, KnockoutFixture, KnockoutPairCount, SingleEliminationPairing; Teams: Visible, CreatedKey, Candidate, Former, Candidates, Formers, HasCaptainRecord, NewCaptain, TeamService.TeamsForPlayer; TournamentService: RosterOf, RoundTypeOf, RoundCount, GeneratedFor, StrategyPairing, RoundsFixtures, RoundsFixturesSnoc, MulSucc, Keeps, AddedUnder, StoresAll, StoresStructure, StoresPlannedStructure, AddsOnlyPlannedRounds, AddsEveryPlannedRound, AddsGeneratedFixtures, RoundWinners, Holds, ApprovedIds, RegistrationWindowOpen, AlreadyHolds, OnePlacePerTeam, NewRegistration, WithdrawalState; Upload: UploadMetadata, HasDirectoryPart; TournamentValidator: StrIn.

## Left out

- Persistence: sessions, queries and flush/commit/rollback are not modelled; each table is a field or a value, and a query is a function over it. The audit wrapper `audited_transaction` (src/audit/service.py:14-19) is not modelled either: it commits the wrapped change before it calls its details extractor with the result alone, so the two-argument extractors of the status, roster, captain, role and join-request services raise after the change is committed, as does the round extractor when it is handed the list of fixtures that `forfeit_unplayed_fixtures` returns (see RoundService.ForfeitUnplayedFixtures below); an exception inside the wrapped operation is rolled back, and nested audited calls commit separately. The audit service defines no `audited_deletion` decorator, although two services name one (see the Access and Teams lines below).
- HTTP routes and framework dependencies are not modelled, except the season stage gate of the legacy season handlers; a route-level check appears only where a service relies on it, as a precondition or an error case.
- WebSocket I/O of the map lobby (sending, broadcasting, chat, identification timeouts, task cancellation) is not modelled; the lobby state, the transition tables and the sequence-number rule are.
- The `transitions` library is not modelled; its transition tables are written out as explicit machines.
- JWT tokens, password hashing and Steam login are not modelled: a password hash is a parameter, and `create_steam_player`, `delete_player` and `delete_team` are left out as single queries.
- The Redis state store is a map field; expiry after the stored lifetime is Redis's behaviour and is not modelled (the lifetime appears only as the number handed out).
- File storage is not modelled: `store_file`, `process_upload` and the temporary-file branch of `move_upload_if_temp` move files on disk; only the non-temporary branch is.
- Floating point is not modelled: the round completion percentage is a `real`, and the join-request average response time is left out.
- Clocks are parameters: every `datetime.now()` is an integer argument.
- Rows that SQL returns in unspecified order (ties of `ORDER BY created_at`, unordered selects) are taken in table order.
- `get_pool_status` of the map-pool service is a read-only report and is not modelled.
- The permission auditor's fixed lists of database tables and the text, CSV and JSON writers of the reporter are not modelled; the summary counts are.
- Scripts, test-data generators, migrations and the interactive permission CLIs are not part of this model.
- Concurrency is not modelled: every request runs to completion before the next.
- Accounts.AccountTable.CreatePlayer: the duplicate-email check goes through `get_player_by_email`, which calls the nonexistent `session.executeute` as well (src/auth/service.py:69) and so raises before the table is read; the model performs the intended check. The database's uniqueness of steam ids is not modelled either.
- Accounts.AccountTable.UpdatePlayer: as written the uid lookup raises (see Findings) and `session.add`, which returns nothing, is awaited (src/auth/service.py:326), which raises too; the model writes the name and returns the account. The four-field `PlayerUpdate` of src/auth/schemas.py:69-73 is shadowed by the name-only one at :169 and is not modelled.
- Access.VerifyPermissions: the grant query filters on `player.id` (src/auth/service/permission.py:127), a field the player record lacks (it has only `uid`), so as written it raises for every player; the model reads the player's grants.
- Access.PlayerGrantsFrom: the same `player.id` read (src/auth/service/permission.py:127) makes every grant lookup raise as written; the model joins the tables by the player's key.
- Access.AccessStore.CreatePermission: the permission service names a decorator `audited_deletion` (src/auth/service/permission.py:83) that the audit service does not define, so that class cannot be defined as written; the model gives the intended service.
- Access.AccessStore.DeletePermission: the same undefined `audited_deletion` decorator (src/auth/service/permission.py:83) stops the class from being defined; the model gives the intended deletion.
- Access.AccessStore.AllKnown: the role service passes `id_extractor=` (src/auth/service/role.py:190 and :220) to the audit decorator, which takes no such parameter, so the role service cannot be defined as written; the model gives the intended service.
- Access.AccessStore.CreateRole: the role service cannot be defined as written (the `id_extractor=` keyword of src/auth/service/role.py:190); the model gives the intended creation.
- Access.AccessStore.UpdateRole: the role service cannot be defined as written (src/auth/service/role.py:190); the model gives the intended update.
- Access.AccessStore.DeleteRole: the role service cannot be defined as written (src/auth/service/role.py:190); the model gives the intended deletion.
- Access.AccessStore.AssignRole: the player-role table's key is (player_uid, role_id) (src/auth/models.py:26-33), so a second assignment of a role a player already holds, in any scope, fails when it is committed and the whole request is rolled back (a player who captains one team cannot be granted the captain role for another); the model appends the row, as the code does before the commit, and does not enforce the key. With the key, at most one row matches a removal, so the refusal of several matches in Access.AccessStore.RemoveRoleFromPlayer cannot arise in the database. Also, besides the role service failing at definition (src/auth/service/role.py:190), the assignment writes `player.id` (:207), which the player record lacks; the model assigns by the player's key.
- Access.AccessStore.RemoveRoleFromPlayer: besides the role service failing at definition, the lookup filters on `player.id` (src/auth/service/role.py:244); the model removes by the player's key.
- Access.VerifyRole: the role service cannot be defined as written (src/auth/service/role.py:190) and its query reads `player.id` (:178); the model checks the player's role assignments.
- StatusFramework.TransitionService.TransitionStatus: models the intended service; as written the history entry and the status fields read `actor.id` (src/status/service.py:99-116), so every accepted transition raises (see Findings, StatusFramework.AttemptAsWritten), and its details extractor takes two arguments where the audit wrapper passes one.
- StatusFramework.AttemptAsWritten: a validator that itself reads the actor's `id` (the roster self-removal branch, the join-request owner check) is given its intended verdict, so some refusals that raise an attribute error as written appear as that validator's refusal.
- MatchService.SubmitResult: the match service imports `TeamCaptain` from a models module that does not define it (src/matches/service.py:17) and records `submitting_player.id` (:104); the model gives the intended submission.
- MatchService.ConfirmResult: the same failing import (src/matches/service.py:17) and the `confirming_player.id` read (:145); the model gives the intended confirmation.
- MatchService.DisputeResult: the same failing import (src/matches/service.py:17), and the captain check reads `player.id` (:61); the model gives the intended dispute.
- MatchService.AdminOverrideResult: the same failing import (src/matches/service.py:17) and the `admin.id` read (:216); the model gives the intended override.
- MatchService.AddMatchPlayer: the match service module cannot import `TeamCaptain` as written (src/matches/service.py:17); the model gives the intended addition.
- Captains.GetCaptain: the captain service imports the undefined `TeamCaptain` (src/teams/service/captain.py:19) and filters on `player.id` (:154); the model gives the intended query.
- Captains.ActiveCaptains: the same failing import (src/teams/service/captain.py:19); the model gives the intended query.
- Captains.CaptainPlayers: the same failing import, and the join reads `Player.id` (src/teams/service/captain.py:211 and :229); the model joins by the player's key.
- Captains.CaptainService.ChangeCaptainStatus: models the intended call; as written the `audit_context` keyword makes every call raise (see Findings) and the module's `TeamCaptain` import fails (src/teams/service/captain.py:19).
- Captains.CaptainService.CreateCaptain: as written the import fails, the new record reads `player.id` (src/teams/service/captain.py:77) and the reactivation branch raises on the `audit_context` keyword; the model gives the intended creation.
- Captains.CaptainService.Reactivate: as written it goes through `change_captain_status`, whose status call raises on the `audit_context` keyword (src/teams/service/captain.py:148); the model gives the intended reactivation, which the captain rules refuse anyway.
- Captains.CaptainService.RemoveCaptain: as written it goes through `change_captain_status`, whose status call raises on the `audit_context` keyword (src/teams/service/captain.py:148); the model gives the intended removal.
- Rosters.RosterService.ChangeRosterStatus: models the intended call; as written the `audit_context` keyword makes every call raise (see Findings, Rosters.ChangeRosterStatusAsWritten). Besides, the module cannot be imported as written (see "Competition models" below).
- Rosters.RosterService.AddPlayerToRoster: as written the lookup and the new entry read `player.id` (src/teams/service/roster.py:310 and :317), and the activation goes through `change_roster_status`, whose status call raises on the `audit_context` keyword (:284); the model gives the intended addition. Besides, the module cannot be imported as written (see "Competition models" below).
- Rosters.RosterService.RemovePlayerFromTeamRoster: as written it goes through `change_roster_status`, whose status call raises on the `audit_context` keyword (src/teams/service/roster.py:284); the model gives the intended removal. Besides, the module cannot be imported as written (see "Competition models" below).
- Rosters.RosterService.SuspendRosterMember: as written it goes through `change_roster_status`, whose status call raises on the `audit_context` keyword (src/teams/service/roster.py:284); the model gives the intended suspension. Besides, the module cannot be imported as written (see "Competition models" below).
- Rosters.RosterService.ReactivateRosterMember: as written it goes through `change_roster_status`, whose status call raises on the `audit_context` keyword (src/teams/service/roster.py:284); the model gives the intended reactivation. Besides, the module cannot be imported as written (see "Competition models" below).
- JoinRequests.JoinRequestService.ApproveRequest: approval adds the player through the roster service, whose activation raises on the `audit_context` keyword as written; the model gives the intended approval. Besides, the module cannot be imported as written (see "Competition models" below).
- Teams.TeamService.CreateTeam: the team service names the undefined `audited_deletion` decorator (src/teams/service/team.py:250), so the class cannot be defined as written; the model gives the intended service.
- Teams.TeamService.CreateCaptain: the team service cannot be defined as written (src/teams/service/team.py:250); the model gives the intended operation.
- Teams.TeamService.RemoveCaptain: the team service cannot be defined as written (src/teams/service/team.py:250); the model gives the intended operation.
- Teams.TeamService.UpdateTeam: the team service cannot be defined as written (src/teams/service/team.py:250); the model gives the intended update.
- Teams.TeamService.DisbandTeam: the team service cannot be defined as written (src/teams/service/team.py:250), and it records `actor.id` (:346); the model gives the intended disbanding.
- Teams.Updated: an update that sets `logo_token_id` (src/teams/base_schemas.py:41) also writes that attribute onto the team; the model leaves the attribute out, and the logo reaches the team only as the resolved path, a parameter.
- Admin.AdminService.ChangePlayerStatus: goes through the transition service, whose `actor.id` read raises as written (src/status/service.py:101); the model gives the intended change.
- Admin.AdminService.VerifyPlayer: as written the admin service cannot import the auth service, whose permission and role services fail at definition (src/auth/service/auth.py:11-12), and it records `actor.id` (src/admin/service.py:36); the model gives the intended verification.
- Admin.AdminService.BanPlayer: the corrected ban still reads `player.id` and `actor.id` as written (src/admin/service.py:67 and :75), and the import fails as for VerifyPlayer; the model records the player's and the admin's keys.
- Admin.AdminService.RevokeBan: as written it records `actor.id` (src/admin/service.py:112) and the import fails as for VerifyPlayer; the model records the admin's key.
- Admin.AdminService.AssignRole: as written the admin service cannot import the auth service (src/auth/service/auth.py:11-12); the model gives the intended assignment.
- PermissionAudit.PermissionAuditor.AuditPlayer: as written the auditor cannot import the auth service (src/auth/service/auth.py:11-12) and reads `player.id` (utils/permissions/auditor.py:67); the model audits by the player's key. Besides, the module cannot be imported as written (see "Competition models" below).
- PermissionAudit.PermissionAuditor.AuditAllPlayers: as written it reads `player.id` for each player (utils/permissions/auditor.py:50); the model audits by the player's key. Besides, the module cannot be imported as written (see "Competition models" below).
- Upload.UploadService.CreateUploadToken: as written the token's details read `player.id` (src/upload/service.py:73); the model records the player's key.
- Standings.CalculateRegular: the rounds query returns row tuples (`.all()`, src/competitions/tournament/standings.py:53), so reading `round.id` (:58) raises as written; the model reads the round ids. Besides, the module cannot be imported as written (see "Competition models" below).
- Standings.CalculateKnockout: the same row tuples (src/competitions/tournament/standings.py:166) make `round.id` (:171) raise as written; the model reads the round ids. Besides, the module cannot be imported as written (see "Competition models" below).
- TournamentService.RegisteredTeams: as written the query joins on `tournament.registrations` and reads `.status` on that list (src/competitions/tournament/service.py:545-548), which raises; the model selects the approved registrations. Besides, the module cannot be imported as written (see "Competition models" below).
- TournamentService.FixtureWinner: as written it reads `.winner_id` on the list of per-map results (src/competitions/tournament/service.py:728), which raises; the model takes the match winner as an optional team given as input. Besides, the module cannot be imported as written (see "Competition models" below).
- TournamentService.GetRoundWinners: goes through the fixture winner, which raises as written (src/competitions/tournament/service.py:728); the model collects the intended winners. Besides, the module cannot be imported as written (see "Competition models" below).
- TournamentService.ValidateRegistrationRequest: as written it calls `get_active_roster_size`, which the team service does not define (src/competitions/tournament/service.py:524); the model counts the team's active roster entries. Besides, the module cannot be imported as written (see "Competition models" below).
- TournamentService.RequestRegistration: goes through the registration validation, which raises as written (src/competitions/tournament/service.py:524); the model gives the intended request. Besides, the module cannot be imported as written (see "Competition models" below).
- LegacyResults.ScheduleKnockoutRound: the legacy fixtures module cannot be imported as written (see "Legacy engine" above), and the fixtures are filtered with `round_id == round_number` (src/fixtures/service.py:266) and the function returns None once one winner remains (:273-274); the model takes the previous round's fixtures as input and returns an empty list at the end.
- LegacySeasons.League.CreateNextRound: the legacy season modules cannot be imported as written (see "Legacy engine" above), and `get_last_round` selects the round number (src/fixtures/service.py:280-281), so `.round_number` (:287) raises, and a None schedule is handed to `add_all` (src/seasons/routes.py:143-144); the model numbers the next round after the last one.
- MapPicker.PickerModel.RecordSide: the lobby's `Map` declares only a name, a state and `oppo_side` (src/fixtures/MapPicker/commands.py:19-22), so assigning `side` (src/fixtures/MapPicker/state_machine.py:158) raises as written; the model's map carries the side.
- MapPicker.PickerMachine.ChooseSide: records the side through RecordSide, which raises as written (src/fixtures/MapPicker/state_machine.py:158); the model records it.
- MapPicker.PickFirstThenSide: builds on ChooseSide, and so on the `side` field the source's `Map` lacks (src/fixtures/MapPicker/commands.py:19-22).
- MapPicker.PickerMachine.Pick: the pick handlers call a method `_process_pick` that does not exist; the model performs the intended `process_pick`.
- MapPicker.PickerMachine: ban and pick look maps up with the intended unique-match lookup (MapPicker.MapIndex), not the failing `get_map_by_name` (see Findings). Also, `process_event` fires each trigger with the event and the connection (src/fixtures/MapPicker/state_machine.py:313-315; old_code/fixtures/MapPicker/state_machine.py:389-392), while the condition `is_valid_map` (:106) and the callback `record_side` (:156) take the event alone, so the transitions library raises TypeError on every ban, pick and side choice in both versions; the model applies the intended one-argument checks.
- LegacyResults.InitiateKnockout: the legacy fixtures module cannot be imported as written (see "Legacy engine" above), and the ranking's (team, points) pairs are handed to the knockout generator where team ids are expected; the model seeds from the teams of the ranking.
- LegacySeasons.League: the season routes dereference an unknown season and fail with an attribute error; the model returns a NoSuchSeason error instead.
- Standings: `match_service.get_match_result` does not exist (only `get_match_results` does); the standings take the match winner as an optional team given as input. Besides, the module cannot be imported as written (see "Competition models" below).
- TournamentService: `complete_round` calls `_get_round_winners`, which does not exist; the model uses `get_round_winners`, and the registration states `REGISTRATION_OPEN`/`REGISTRATION_CLOSED` that the service uses are part of the tournament status type. Besides, the module cannot be imported as written (see "Competition models" below).

- Legacy engine: none of the legacy modules can be imported as written. src/fixtures/service.py:4 and src/fixtures/utils.py:4 import `Round`/`RoundType` from src/fixtures/models.py, which defines neither. src/seasons/service.py:3 imports `RoundType` from there too, and src/seasons/models.py:23-24 has an unbalanced parenthesis. The declared `Fixture` has no `round_id` (written at src/fixtures/service.py:132 and :245, read at :266). The declared `Result` (src/fixtures/models.py:30-37) has no `score_team_1`, `score_team_2`, `submitted_by` or `confirmed`. The declared `Roster` has no `pending` (read at src/fixtures/utils.py:15). The model gives the legacy operations as their code intends, over tables that carry these fields.
- LegacyFixtures.CreateFixture: the legacy fixtures module cannot be imported as written (src/fixtures/service.py:4 imports `Round` and `RoundType`, which src/fixtures/models.py does not define; see "Legacy engine" above); the model gives the intended creation (see Findings for the `round` key).
- LegacyFixtures.CreateRoundRobin: the legacy fixtures module cannot be imported as written (src/fixtures/service.py:4 imports `Round` and `RoundType`, which src/fixtures/models.py does not define; see "Legacy engine" above), and each fixture is built with a `round_id` (:132) the declared `Fixture` lacks; the model gives the intended schedule.
- LegacyFixtures.CreateRoundRobinUntyped: src/fixtures/utils.py:4 imports the undefined `Round`, so the module cannot be imported as written; the model gives the intended schedule.
- LegacyResults.DetermineTeamScores: the legacy fixtures module cannot be imported as written (src/fixtures/service.py:4 imports `Round` and `RoundType`, which src/fixtures/models.py does not define; see "Legacy engine" above); the model gives the intended ranking.
- LegacyResults.DetermineWinners: the legacy fixtures module cannot be imported as written (src/fixtures/service.py:4 imports `Round` and `RoundType`, which src/fixtures/models.py does not define; see "Legacy engine" above); the model gives the intended winners (see Findings for byes).
- LegacyResults.GenerateKnockoutFixtures: the legacy fixtures module cannot be imported as written (src/fixtures/service.py:4 imports `Round` and `RoundType`, which src/fixtures/models.py does not define; see "Legacy engine" above), and each fixture is built with a `round_id` (src/fixtures/service.py:245) the declared `Fixture` lacks; the model gives the intended draw.
- LegacyResults.ResultsStore.ResultFor: the legacy fixtures module cannot be imported as written (src/fixtures/service.py:4 imports `Round` and `RoundType`, which src/fixtures/models.py does not define; see "Legacy engine" above); the model reads the intended result row.
- LegacyResults.ResultsStore.AddResult: the legacy fixtures module cannot be imported as written (src/fixtures/service.py:4 imports `Round` and `RoundType`, which src/fixtures/models.py does not define; see "Legacy engine" above), and the scores, the submitter and the confirmation flag it writes (src/fixtures/service.py:335-338) are not columns of the declared `Result` (src/fixtures/models.py:30-37); the model's result row carries them.
- LegacyResults.ResultsStore.ConfirmResult: the legacy fixtures module cannot be imported as written (src/fixtures/service.py:4 imports `Round` and `RoundType`, which src/fixtures/models.py does not define; see "Legacy engine" above), and `confirmed` (src/fixtures/service.py:350) is not a column of the declared `Result`; the model's result row carries it.
- LegacyResults.TeamsWithMinPlayersUtils: src/fixtures/utils.py:4 imports the undefined `Round`, and the query filters on `Roster.pending` (:15), which the declared `Roster` lacks; the model counts each team's distinct non-pending players.
- LegacyResults.TeamsWithMinPlayersUtilsExact: the same failing import (src/fixtures/utils.py:4) and the same undeclared `Roster.pending` (:15); the lemma is about the intended query.
- LegacySeasons.SeasonIndex: the legacy season modules cannot be imported as written (src/seasons/service.py:3 imports the undefined `RoundType`, src/seasons/models.py:23-24 does not parse, and the routes import the legacy fixtures module; see "Legacy engine" above); the model gives the intended lookup.
- LegacySeasons.SeasonNamed: the legacy season modules cannot be imported as written (src/seasons/service.py:3 imports the undefined `RoundType`, src/seasons/models.py:23-24 does not parse, and the routes import the legacy fixtures module; see "Legacy engine" above); the model gives the intended lookup.
- LegacySeasons.ActiveSeason: the legacy season modules cannot be imported as written (src/seasons/service.py:3 imports the undefined `RoundType`, src/seasons/models.py:23-24 does not parse, and the routes import the legacy fixtures module; see "Legacy engine" above); the model gives the intended query.
- LegacySeasons.GroupStagePlayed: the legacy season modules cannot be imported as written (src/seasons/service.py:3 imports the undefined `RoundType`, src/seasons/models.py:23-24 does not parse, and the routes import the legacy fixtures module; see "Legacy engine" above); the model gives the intended query.
- LegacySeasons.League.CreateNewSeason: the legacy season modules cannot be imported as written (src/seasons/service.py:3 imports the undefined `RoundType`, src/seasons/models.py:23-24 does not parse, and the routes import the legacy fixtures module; see "Legacy engine" above); the model gives the intended handler.
- LegacySeasons.League.SetActiveSeason: the legacy season modules cannot be imported as written (src/seasons/service.py:3 imports the undefined `RoundType`, src/seasons/models.py:23-24 does not parse, and the routes import the legacy fixtures module; see "Legacy engine" above); the model gives the intended handler.
- LegacySeasons.League.GenerateGroupStage: the legacy season modules cannot be imported as written (src/seasons/service.py:3 imports the undefined `RoundType`, src/seasons/models.py:23-24 does not parse, and the routes import the legacy fixtures module; see "Legacy engine" above); the model gives the intended handler.
- LegacySeasons.League.StartKnockout: the legacy season modules cannot be imported as written (src/seasons/service.py:3 imports the undefined `RoundType`, src/seasons/models.py:23-24 does not parse, and the routes import the legacy fixtures module; see "Legacy engine" above); the model gives the intended handler.
- Team and roster schema: the declared `Roster` (src/teams/models.py:25-37) has only `team_id`, `player_uid`, `season_id`, `created_at` and `update_at`, with no `id`, `player_id` or `status`. The declared `Team` (:40-51) has no `status`, recruitment flag, logo or disband fields. `TeamCaptain` and `TeamStatus` are defined nowhere. The team, roster, captain, join-request and status services are written against richer tables; the model gives those tables, and the lines below name what raises as written.
- Rosters.TeamRoster: the status filters read `Roster.status` (src/teams/service/roster.py:88-90), which the declared `Roster` lacks, so the query raises as written; the model filters the entries' statuses. Besides, the module cannot be imported as written (see "Competition models" below).
- Rosters.ActiveCount: the count filters on `Roster.status` (src/teams/service/roster.py:105), which the declared `Roster` lacks, so it raises as written; the model counts the ACTIVE entries. Besides, the module cannot be imported as written (see "Competition models" below).
- Rosters.ValidateRosterSize: counts through the ACTIVE-count query, which raises as written (src/teams/service/roster.py:105); the model counts the ACTIVE entries. Besides, the module cannot be imported as written (see "Competition models" below).
- Rosters.TeamsWithMinPlayers: the query reads `Roster.status` and `Roster.player_id` (src/teams/service/roster.py:151-153), neither a declared column, so it raises as written; the model gives the intended query. Besides, the module cannot be imported as written (see "Competition models" below).
- Rosters.PlayerRows: the query filters on `Roster.player_id` (src/teams/service/roster.py:193), which the declared `Roster` lacks (it has `player_uid`), so it raises as written; the model selects the player's entries. Besides, the module cannot be imported as written (see "Competition models" below).
- Rosters.CurrentEntry: built on the player query, which raises as written (src/teams/service/roster.py:193); the model gives the intended current entry. Besides, the module cannot be imported as written (see "Competition models" below).
- Rosters.RosterHistory: built on the player query, which raises as written (src/teams/service/roster.py:193); the model gives the intended history. Besides, the module cannot be imported as written (see "Competition models" below).
- Teams.AllTeams: the team service imports `TeamCaptain` and `TeamStatus` from the team models (src/teams/service/team.py:10), which define neither, and `Team.status` (:58) is not a declared column; the model gives the intended query.
- Teams.PlayerTeams: the same failing import (src/teams/service/team.py:10), and the query filters on `Roster.player_id` (:371), which the declared `Roster` lacks; the model selects by the player's key.
- JoinRequests.JoinRequestService.CreateRequest: the on-a-team guard hands `_get_player_roster` the player and season objects where ids are expected (src/teams/join_request/service.py:57), and that query filters on `Roster.player_id` and `Roster.status` (src/teams/service/roster.py:129-137), which the declared `Roster` lacks; the model checks the player's ACTIVE entries in the season. Besides, the module cannot be imported as written (see "Competition models" below).
- StatusRules.InitializeRosterManager: src/status/manager/roster.py:14 imports the undefined `TeamCaptain`, so the roster manager cannot be built as written; the model gives the intended rules.
- StatusRules.InitializeJoinRequestManager: src/status/manager/join_request.py:12 imports the undefined `TeamCaptain`, so the join-request manager cannot be built as written; the model gives the intended rules.
- StatusChecks.RosterPermissionDecision: its validator's module cannot be imported as written (the `TeamCaptain` import at src/status/manager/roster.py:14); the model gives the intended decision.
- StatusFramework and StatusRules: src/status/transition_validator.py:7, src/status/service.py:8 and every src/status/manager module import the permission service module, whose class cannot be defined as written (the undefined `audited_deletion`, src/auth/service/permission.py:83), so no status module can be imported; the model gives the intended framework and rules.
- TournamentService.Update: an explicit null `name` or `max_team_size` would be written onto the tournament; the model's update takes None for those two fields as not set. The required `map_pool` field (src/competitions/tournament/schemas.py:27) is written too and is not modelled. Besides, the module cannot be imported as written (see "Competition models" below).
- TournamentService.UpdateTournament: models the intended update; as written every call fails (see Findings, TournamentService.UpdateAsWritten). Besides, the module cannot be imported as written (see "Competition models" below).
- FixtureService.UpdateCheck: an explicit null status is stored as written, since the status column is nullable (src/competitions/models/fixtures.py:29); the model's fixture status is never null, so the model refuses it. A null time is refused as the NOT NULL column (:25) refuses it when stored. Besides, the module cannot be imported as written (see "Competition models" below).
- Teams.Updated: an explicit null `name` would be written onto the team (src/teams/service/team.py:319-324) and refused by the NOT NULL name column when stored; the model's `TeamUpdate` takes None as not set, so that failing update is not modelled.
- RoundService.ForfeitUnplayedFixtures: as written the audit wrapper hands the returned list of fixtures to `_round_audit_details` (src/competitions/rounds/service.py:22-35), which reads `round.id` off it and raises after the forfeits were committed; the model returns the list and the forfeits stand, which is what the committed database shows. Besides, the module cannot be imported as written (see "Competition models" below).
- RoundService.ExtendRoundDeadline: models the intended extension; as written it raises on `round.admin_notes` (see Findings, RoundService.ExtendAsWritten). Besides, the module cannot be imported as written (see "Competition models" below).
- RoundService.ReopenRound: models the intended reopen; as written it raises on `round.admin_notes` (see Findings, RoundService.ReopenAsWritten). Besides, the module cannot be imported as written (see "Competition models" below).
- RoundService.AppendNote: the round table declares no `admin_notes` column (src/competitions/models/rounds.py:9-24); the model's round carries the notes the extension and the reopen log. Besides, the module cannot be imported as written (see "Competition models" below).
- MapPicker: the `set_team_name` command of both lobby versions (src/fixtures/MapPicker/state_machine.py:333, old_code/fixtures/MapPicker/state_machine.py:410) renames a team and broadcasts the rosters; it is not modelled, and the model's team names are fixed when the lobby is created.
- Competition models: none of the competition modules can be imported as written. src/competitions/models/tournaments.py:24-25 and src/competitions/models/seasons.py:17-18 each close the `id` field with an unmatched `)`, so neither file parses, and neither imports `uuid`. `RoundType`, imported from src/competitions/models/rounds.py by src/competitions/tournament/generation/strategies.py:8, src/competitions/tournament/standings.py:10, src/competitions/rounds/service.py:8 and src/competitions/fixtures/service.py:9, is not defined there, and `TournamentRegistration`, imported by src/competitions/tournament/service.py:8, is defined nowhere. This affects the modules TournamentValidator, GenerationStrategies, Standings, TournamentService, RoundService, FixtureService, SeasonService and CompetitionData, and through the season and tournament models also JoinRequests (src/teams/join_request/service.py:12), Rosters (src/teams/service/roster.py:20), PermissionReport (utils/permissions/reporter.py:15) and PermissionAudit (utils/permissions/auditor.py:10). The model gives this code as it would run once the models parse; each member affected is listed below.
- TournamentValidator.ValidateRegularConfig: src/competitions/tournament/generation/validators.py:5 imports the tournament models, which do not parse, so the module cannot be imported as written (see "Competition models" above); the model gives the code as it would run once the models parse.
- TournamentValidator.ValidateKnockoutConfig: src/competitions/tournament/generation/validators.py:5 imports the tournament models, which do not parse, so the module cannot be imported as written (see "Competition models" above); the model gives the code as it would run once the models parse.
- TournamentValidator.ValidateTournamentConfig: src/competitions/tournament/generation/validators.py:5 imports the tournament models, which do not parse, so the module cannot be imported as written (see "Competition models" above); the model gives the code as it would run once the models parse.
- TournamentValidator.ValidateTournamentDates: src/competitions/tournament/generation/validators.py:5 imports the tournament models, which do not parse, so the module cannot be imported as written (see "Competition models" above); the model gives the code as it would run once the models parse.
- TournamentValidator.FirstSmallRoster: src/competitions/tournament/generation/validators.py:5 imports the tournament models, which do not parse, so the module cannot be imported as written (see "Competition models" above); the model gives the code as it would run once the models parse.
- TournamentValidator.ValidateTeams: src/competitions/tournament/generation/validators.py:5 imports the tournament models, which do not parse, so the module cannot be imported as written (see "Competition models" above); the model gives the code as it would run once the models parse.
- TournamentValidator.FirstOverlap: src/competitions/tournament/generation/validators.py:5 imports the tournament models, which do not parse, so the module cannot be imported as written (see "Competition models" above); the model gives the code as it would run once the models parse.
- TournamentValidator.ValidateRoundDates: src/competitions/tournament/generation/validators.py:5 imports the tournament models, which do not parse, so the module cannot be imported as written (see "Competition models" above); the model gives the code as it would run once the models parse.
- GenerationStrategies.ValidateTeamCount: src/competitions/tournament/generation/strategies.py:7-8 imports the tournament models, which do not parse, and the undefined `RoundType`, so the module cannot be imported as written (see "Competition models" above); the model gives the code as it would run once the models parse.
- GenerationStrategies.GetGenerationStrategy: src/competitions/tournament/generation/strategies.py:7-8 imports the tournament models, which do not parse, and the undefined `RoundType`, so the module cannot be imported as written (see "Competition models" above); the model gives the code as it would run once the models parse.
- GenerationStrategies.BuildRounds: src/competitions/tournament/generation/strategies.py:7-8 imports the tournament models, which do not parse, and the undefined `RoundType`, so the module cannot be imported as written (see "Competition models" above); the model gives the code as it would run once the models parse.
- GenerationStrategies.RoundRobinRounds: src/competitions/tournament/generation/strategies.py:7-8 imports the tournament models, which do not parse, and the undefined `RoundType`, so the module cannot be imported as written (see "Competition models" above); the model gives the code as it would run once the models parse.
- GenerationStrategies.Pow2: src/competitions/tournament/generation/strategies.py:7-8 imports the tournament models, which do not parse, and the undefined `RoundType`, so the module cannot be imported as written (see "Competition models" above); the model gives the code as it would run once the models parse.
- GenerationStrategies.SingleEliminationRounds: src/competitions/tournament/generation/strategies.py:7-8 imports the tournament models, which do not parse, and the undefined `RoundType`, so the module cannot be imported as written (see "Competition models" above); the model gives the code as it would run once the models parse.
- GenerationStrategies.WithBye: src/competitions/tournament/generation/strategies.py:7-8 imports the tournament models, which do not parse, and the undefined `RoundType`, so the module cannot be imported as written (see "Competition models" above); the model gives the code as it would run once the models parse.
- GenerationStrategies.RoundRobinFixtures: src/competitions/tournament/generation/strategies.py:7-8 imports the tournament models, which do not parse, and the undefined `RoundType`, so the module cannot be imported as written (see "Competition models" above); the model gives the code as it would run once the models parse. It also returns no fixtures for an empty team list, where src/competitions/tournament/generation/strategies.py:101 raises IndexError; generation never reaches that case, since the team-count check comes first. GenerationStrategies.MatchFormatOf reads a `match_format` that is not a string as the default, where the code stores whatever value the configuration holds.
- GenerationStrategies.KnockoutPairs: src/competitions/tournament/generation/strategies.py:7-8 imports the tournament models, which do not parse, and the undefined `RoundType`, so the module cannot be imported as written (see "Competition models" above); the model gives the code as it would run once the models parse.
- GenerationStrategies.SingleEliminationFixtures: src/competitions/tournament/generation/strategies.py:7-8 imports the tournament models, which do not parse, and the undefined `RoundType`, so the module cannot be imported as written (see "Competition models" above); the model gives the code as it would run once the models parse.
- Standings.WithTeam: src/competitions/tournament/standings.py:8 and :10 import the tournament models, which do not parse, and the undefined `RoundType`, so the module cannot be imported as written (see "Competition models" above); the model gives the code as it would run once the models parse.
- Standings.Put: src/competitions/tournament/standings.py:8 and :10 import the tournament models, which do not parse, and the undefined `RoundType`, so the module cannot be imported as written (see "Competition models" above); the model gives the code as it would run once the models parse.
- Standings.Decide: src/competitions/tournament/standings.py:8 and :10 import the tournament models, which do not parse, and the undefined `RoundType`, so the module cannot be imported as written (see "Competition models" above); the model gives the code as it would run once the models parse.
- Standings.TeamTable.constructor: src/competitions/tournament/standings.py:8 and :10 import the tournament models, which do not parse, and the undefined `RoundType`, so the module cannot be imported as written (see "Competition models" above); the model gives the code as it would run once the models parse.
- Standings.TeamTable.InitTeam: src/competitions/tournament/standings.py:8 and :10 import the tournament models, which do not parse, and the undefined `RoundType`, so the module cannot be imported as written (see "Competition models" above); the model gives the code as it would run once the models parse.
- Standings.Losses: src/competitions/tournament/standings.py:8 and :10 import the tournament models, which do not parse, and the undefined `RoundType`, so the module cannot be imported as written (see "Competition models" above); the model gives the code as it would run once the models parse.
- Standings.WinLoss: src/competitions/tournament/standings.py:8 and :10 import the tournament models, which do not parse, and the undefined `RoundType`, so the module cannot be imported as written (see "Competition models" above); the model gives the code as it would run once the models parse.
- Standings.RegularFixture: src/competitions/tournament/standings.py:8 and :10 import the tournament models, which do not parse, and the undefined `RoundType`, so the module cannot be imported as written (see "Competition models" above); the model gives the code as it would run once the models parse.
- Standings.RegularRows: src/competitions/tournament/standings.py:8 and :10 import the tournament models, which do not parse, and the undefined `RoundType`, so the module cannot be imported as written (see "Competition models" above); the model gives the code as it would run once the models parse.
- Standings.ProcessFixtureResult: src/competitions/tournament/standings.py:8 and :10 import the tournament models, which do not parse, and the undefined `RoundType`, so the module cannot be imported as written (see "Competition models" above); the model gives the code as it would run once the models parse.
- Standings.ProcessRegularRound: src/competitions/tournament/standings.py:8 and :10 import the tournament models, which do not parse, and the undefined `RoundType`, so the module cannot be imported as written (see "Competition models" above); the model gives the code as it would run once the models parse.
- Standings.TallyRegular: src/competitions/tournament/standings.py:8 and :10 import the tournament models, which do not parse, and the undefined `RoundType`, so the module cannot be imported as written (see "Competition models" above); the model gives the code as it would run once the models parse.
- Standings.RegularRowsOf: src/competitions/tournament/standings.py:8 and :10 import the tournament models, which do not parse, and the undefined `RoundType`, so the module cannot be imported as written (see "Competition models" above); the model gives the code as it would run once the models parse.
- Standings.Eliminations: src/competitions/tournament/standings.py:8 and :10 import the tournament models, which do not parse, and the undefined `RoundType`, so the module cannot be imported as written (see "Competition models" above); the model gives the code as it would run once the models parse.
- Standings.Advancement: src/competitions/tournament/standings.py:8 and :10 import the tournament models, which do not parse, and the undefined `RoundType`, so the module cannot be imported as written (see "Competition models" above); the model gives the code as it would run once the models parse.
- Standings.KnockoutFixture: src/competitions/tournament/standings.py:8 and :10 import the tournament models, which do not parse, and the undefined `RoundType`, so the module cannot be imported as written (see "Competition models" above); the model gives the code as it would run once the models parse.
- Standings.KnockoutRows: src/competitions/tournament/standings.py:8 and :10 import the tournament models, which do not parse, and the undefined `RoundType`, so the module cannot be imported as written (see "Competition models" above); the model gives the code as it would run once the models parse.
- Standings.ProcessKnockoutFixture: src/competitions/tournament/standings.py:8 and :10 import the tournament models, which do not parse, and the undefined `RoundType`, so the module cannot be imported as written (see "Competition models" above); the model gives the code as it would run once the models parse.
- Standings.ProcessKnockoutRound: src/competitions/tournament/standings.py:8 and :10 import the tournament models, which do not parse, and the undefined `RoundType`, so the module cannot be imported as written (see "Competition models" above); the model gives the code as it would run once the models parse.
- Standings.TallyKnockout: src/competitions/tournament/standings.py:8 and :10 import the tournament models, which do not parse, and the undefined `RoundType`, so the module cannot be imported as written (see "Competition models" above); the model gives the code as it would run once the models parse.
- Standings.KnockoutRowsOf: src/competitions/tournament/standings.py:8 and :10 import the tournament models, which do not parse, and the undefined `RoundType`, so the module cannot be imported as written (see "Competition models" above); the model gives the code as it would run once the models parse.
- Standings.Lower: src/competitions/tournament/standings.py:8 and :10 import the tournament models, which do not parse, and the undefined `RoundType`, so the module cannot be imported as written (see "Competition models" above); the model gives the code as it would run once the models parse.
- Standings.GetStandingsCalculator: src/competitions/tournament/standings.py:8 and :10 import the tournament models, which do not parse, and the undefined `RoundType`, so the module cannot be imported as written (see "Competition models" above); the model gives the code as it would run once the models parse.
- TournamentService.ApplyUpdate: src/competitions/tournament/service.py:8 imports the tournament models, which do not parse, and the undefined `TournamentRegistration`, so the module cannot be imported as written (see "Competition models" above); the model gives the code as it would run once the models parse.
- TournamentService.UpdateAsWritten: src/competitions/tournament/service.py:8 imports the tournament models, which do not parse, and the undefined `TournamentRegistration`, so the module cannot be imported as written (see "Competition models" above); the model gives the code as it would run once the models parse.
- TournamentService.RosterCounts: src/competitions/tournament/service.py:8 imports the tournament models, which do not parse, and the undefined `TournamentRegistration`, so the module cannot be imported as written (see "Competition models" above); the model gives the code as it would run once the models parse.
- TournamentService.PlannedRounds: src/competitions/tournament/service.py:8 imports the tournament models, which do not parse, and the undefined `TournamentRegistration`, so the module cannot be imported as written (see "Competition models" above); the model gives the code as it would run once the models parse.
- TournamentService.GenerationCheck: src/competitions/tournament/service.py:8 imports the tournament models, which do not parse, and the undefined `TournamentRegistration`, so the module cannot be imported as written (see "Competition models" above); the model gives the code as it would run once the models parse.
- TournamentService.AddRows: src/competitions/tournament/service.py:8 imports the tournament models, which do not parse, and the undefined `TournamentRegistration`, so the module cannot be imported as written (see "Competition models" above); the model gives the code as it would run once the models parse.
- TournamentService.StrategyFixtures: src/competitions/tournament/service.py:8 imports the tournament models, which do not parse, and the undefined `TournamentRegistration`, so the module cannot be imported as written (see "Competition models" above); the model gives the code as it would run once the models parse.
- TournamentService.AllFixtures: src/competitions/tournament/service.py:8 imports the tournament models, which do not parse, and the undefined `TournamentRegistration`, so the module cannot be imported as written (see "Competition models" above); the model gives the code as it would run once the models parse.
- TournamentService.SaveStructure: src/competitions/tournament/service.py:8 imports the tournament models, which do not parse, and the undefined `TournamentRegistration`, so the module cannot be imported as written (see "Competition models" above); the model gives the code as it would run once the models parse.
- TournamentService.AddGeneratedFixtures: src/competitions/tournament/service.py:8 imports the tournament models, which do not parse, and the undefined `TournamentRegistration`, so the module cannot be imported as written (see "Competition models" above); the model gives the code as it would run once the models parse.
- TournamentService.BuildStructure: src/competitions/tournament/service.py:8 imports the tournament models, which do not parse, and the undefined `TournamentRegistration`, so the module cannot be imported as written (see "Competition models" above); the model gives the code as it would run once the models parse.
- TournamentService.GenerateTournamentStructure: src/competitions/tournament/service.py:8 imports the tournament models, which do not parse, and the undefined `TournamentRegistration`, so the module cannot be imported as written (see "Competition models" above); the model gives the code as it would run once the models parse.
- TournamentService.SaveGeneratedStructure: src/competitions/tournament/service.py:8 imports the tournament models, which do not parse, and the undefined `TournamentRegistration`, so the module cannot be imported as written (see "Competition models" above); the model gives the code as it would run once the models parse.
- TournamentService.CompleteTournament: src/competitions/tournament/service.py:8 imports the tournament models, which do not parse, and the undefined `TournamentRegistration`, so the module cannot be imported as written (see "Competition models" above); the model gives the code as it would run once the models parse.
- TournamentService.CancelTournament: src/competitions/tournament/service.py:8 imports the tournament models, which do not parse, and the undefined `TournamentRegistration`, so the module cannot be imported as written (see "Competition models" above); the model gives the code as it would run once the models parse.
- TournamentService.StartTournament: src/competitions/tournament/service.py:8 imports the tournament models, which do not parse, and the undefined `TournamentRegistration`, so the module cannot be imported as written (see "Competition models" above); the model gives the code as it would run once the models parse.
- TournamentService.TeamOf: src/competitions/tournament/service.py:8 imports the tournament models, which do not parse, and the undefined `TournamentRegistration`, so the module cannot be imported as written (see "Competition models" above); the model gives the code as it would run once the models parse.
- TournamentService.Extend: src/competitions/tournament/service.py:8 imports the tournament models, which do not parse, and the undefined `TournamentRegistration`, so the module cannot be imported as written (see "Competition models" above); the model gives the code as it would run once the models parse.
- TournamentService.WinnerIds: src/competitions/tournament/service.py:8 imports the tournament models, which do not parse, and the undefined `TournamentRegistration`, so the module cannot be imported as written (see "Competition models" above); the model gives the code as it would run once the models parse.
- TournamentService.AdvanceWinners: src/competitions/tournament/service.py:8 imports the tournament models, which do not parse, and the undefined `TournamentRegistration`, so the module cannot be imported as written (see "Competition models" above); the model gives the code as it would run once the models parse.
- TournamentService.CompleteRound: src/competitions/tournament/service.py:8 imports the tournament models, which do not parse, and the undefined `TournamentRegistration`, so the module cannot be imported as written (see "Competition models" above); the model gives the code as it would run once the models parse.
- TournamentService.GetRegistrations: src/competitions/tournament/service.py:8 imports the tournament models, which do not parse, and the undefined `TournamentRegistration`, so the module cannot be imported as written (see "Competition models" above); the model gives the code as it would run once the models parse.
- TournamentService.FindRegistration: src/competitions/tournament/service.py:8 imports the tournament models, which do not parse, and the undefined `TournamentRegistration`, so the module cannot be imported as written (see "Competition models" above); the model gives the code as it would run once the models parse.
- TournamentService.ReviewAsWritten: src/competitions/tournament/service.py:8 imports the tournament models, which do not parse, and the undefined `TournamentRegistration`, so the module cannot be imported as written (see "Competition models" above); the model gives the code as it would run once the models parse.
- TournamentService.ReviewRegistrationRecord: src/competitions/tournament/service.py:8 imports the tournament models, which do not parse, and the undefined `TournamentRegistration`, so the module cannot be imported as written (see "Competition models" above); the model gives the code as it would run once the models parse.
- TournamentService.ReviewRegistration: src/competitions/tournament/service.py:8 imports the tournament models, which do not parse, and the undefined `TournamentRegistration`, so the module cannot be imported as written (see "Competition models" above); the model gives the code as it would run once the models parse.
- TournamentService.WithdrawRegistration: src/competitions/tournament/service.py:8 imports the tournament models, which do not parse, and the undefined `TournamentRegistration`, so the module cannot be imported as written (see "Competition models" above); the model gives the code as it would run once the models parse.
- RoundService.CreateCheck: src/competitions/rounds/service.py:8-9 imports the undefined `RoundType` and the tournament models, which do not parse, so the module cannot be imported as written (see "Competition models" above); the model gives the code as it would run once the models parse.
- RoundService.CreateRound: src/competitions/rounds/service.py:8-9 imports the undefined `RoundType` and the tournament models, which do not parse, so the module cannot be imported as written (see "Competition models" above); the model gives the code as it would run once the models parse.
- RoundService.StartCheck: src/competitions/rounds/service.py:8-9 imports the undefined `RoundType` and the tournament models, which do not parse, so the module cannot be imported as written (see "Competition models" above); the model gives the code as it would run once the models parse.
- RoundService.WithStatus: src/competitions/rounds/service.py:8-9 imports the undefined `RoundType` and the tournament models, which do not parse, so the module cannot be imported as written (see "Competition models" above); the model gives the code as it would run once the models parse.
- RoundService.StartRound: src/competitions/rounds/service.py:8-9 imports the undefined `RoundType` and the tournament models, which do not parse, so the module cannot be imported as written (see "Competition models" above); the model gives the code as it would run once the models parse.
- RoundService.CompleteCheck: src/competitions/rounds/service.py:8-9 imports the undefined `RoundType` and the tournament models, which do not parse, so the module cannot be imported as written (see "Competition models" above); the model gives the code as it would run once the models parse.
- RoundService.CompleteRound: src/competitions/rounds/service.py:8-9 imports the undefined `RoundType` and the tournament models, which do not parse, so the module cannot be imported as written (see "Competition models" above); the model gives the code as it would run once the models parse.
- RoundService.ValidateRoundDates: src/competitions/rounds/service.py:8-9 imports the undefined `RoundType` and the tournament models, which do not parse, so the module cannot be imported as written (see "Competition models" above); the model gives the code as it would run once the models parse.
- RoundService.Percentage: src/competitions/rounds/service.py:8-9 imports the undefined `RoundType` and the tournament models, which do not parse, so the module cannot be imported as written (see "Competition models" above); the model gives the code as it would run once the models parse.
- RoundService.GetRoundSummary: src/competitions/rounds/service.py:8-9 imports the undefined `RoundType` and the tournament models, which do not parse, so the module cannot be imported as written (see "Competition models" above); the model gives the code as it would run once the models parse.
- RoundService.Chain: src/competitions/rounds/service.py:8-9 imports the undefined `RoundType` and the tournament models, which do not parse, so the module cannot be imported as written (see "Competition models" above); the model gives the code as it would run once the models parse.
- RoundService.Shift: src/competitions/rounds/service.py:8-9 imports the undefined `RoundType` and the tournament models, which do not parse, so the module cannot be imported as written (see "Competition models" above); the model gives the code as it would run once the models parse.
- RoundService.CascadeRoundDates: src/competitions/rounds/service.py:8-9 imports the undefined `RoundType` and the tournament models, which do not parse, so the module cannot be imported as written (see "Competition models" above); the model gives the code as it would run once the models parse.
- RoundService.ExtendCheck: src/competitions/rounds/service.py:8-9 imports the undefined `RoundType` and the tournament models, which do not parse, so the module cannot be imported as written (see "Competition models" above); the model gives the code as it would run once the models parse.
- RoundService.ExtendAsWritten: src/competitions/rounds/service.py:8-9 imports the undefined `RoundType` and the tournament models, which do not parse, so the module cannot be imported as written (see "Competition models" above); the model gives the code as it would run once the models parse.
- RoundService.AutoForfeited: src/competitions/rounds/service.py:8-9 imports the undefined `RoundType` and the tournament models, which do not parse, so the module cannot be imported as written (see "Competition models" above); the model gives the code as it would run once the models parse.
- RoundService.ForfeitEachUnplayed: src/competitions/rounds/service.py:8-9 imports the undefined `RoundType` and the tournament models, which do not parse, so the module cannot be imported as written (see "Competition models" above); the model gives the code as it would run once the models parse.
- RoundService.ReopenCheck: src/competitions/rounds/service.py:8-9 imports the undefined `RoundType` and the tournament models, which do not parse, so the module cannot be imported as written (see "Competition models" above); the model gives the code as it would run once the models parse.
- RoundService.Reopened: src/competitions/rounds/service.py:8-9 imports the undefined `RoundType` and the tournament models, which do not parse, so the module cannot be imported as written (see "Competition models" above); the model gives the code as it would run once the models parse.
- RoundService.ReopenAsWritten: src/competitions/rounds/service.py:8-9 imports the undefined `RoundType` and the tournament models, which do not parse, so the module cannot be imported as written (see "Competition models" above); the model gives the code as it would run once the models parse.
- FixtureService.CreateCheck: src/competitions/fixtures/service.py:7 and :9 import the tournament models, which do not parse, and the undefined `RoundType`, so the module cannot be imported as written (see "Competition models" above); the model gives the code as it would run once the models parse.
- FixtureService.NewFixture: src/competitions/fixtures/service.py:7 and :9 import the tournament models, which do not parse, and the undefined `RoundType`, so the module cannot be imported as written (see "Competition models" above); the model gives the code as it would run once the models parse.
- FixtureService.CreateFixture: src/competitions/fixtures/service.py:7 and :9 import the tournament models, which do not parse, and the undefined `RoundType`, so the module cannot be imported as written (see "Competition models" above); the model gives the code as it would run once the models parse.
- FixtureService.WindowCheck: src/competitions/fixtures/service.py:7 and :9 import the tournament models, which do not parse, and the undefined `RoundType`, so the module cannot be imported as written (see "Competition models" above); the model gives the code as it would run once the models parse.
- FixtureService.Updated: src/competitions/fixtures/service.py:7 and :9 import the tournament models, which do not parse, and the undefined `RoundType`, so the module cannot be imported as written (see "Competition models" above); the model gives the code as it would run once the models parse.
- FixtureService.UpdateFixture: src/competitions/fixtures/service.py:7 and :9 import the tournament models, which do not parse, and the undefined `RoundType`, so the module cannot be imported as written (see "Competition models" above); the model gives the code as it would run once the models parse.
- FixtureService.RescheduleCheck: src/competitions/fixtures/service.py:7 and :9 import the tournament models, which do not parse, and the undefined `RoundType`, so the module cannot be imported as written (see "Competition models" above); the model gives the code as it would run once the models parse.
- FixtureService.Rescheduled: src/competitions/fixtures/service.py:7 and :9 import the tournament models, which do not parse, and the undefined `RoundType`, so the module cannot be imported as written (see "Competition models" above); the model gives the code as it would run once the models parse.
- FixtureService.RescheduleFixture: src/competitions/fixtures/service.py:7 and :9 import the tournament models, which do not parse, and the undefined `RoundType`, so the module cannot be imported as written (see "Competition models" above); the model gives the code as it would run once the models parse.
- FixtureService.CheckRoundCompletion: src/competitions/fixtures/service.py:7 and :9 import the tournament models, which do not parse, and the undefined `RoundType`, so the module cannot be imported as written (see "Competition models" above); the model gives the code as it would run once the models parse.
- FixtureService.RoundCompletionAsWritten: src/competitions/fixtures/service.py:7 and :9 import the tournament models, which do not parse, and the undefined `RoundType`, so the module cannot be imported as written (see "Competition models" above); the model gives the code as it would run once the models parse.
- FixtureService.RoundCompletion: src/competitions/fixtures/service.py:7 and :9 import the tournament models, which do not parse, and the undefined `RoundType`, so the module cannot be imported as written (see "Competition models" above); the model gives the code as it would run once the models parse.
- FixtureService.ForfeitCheck: src/competitions/fixtures/service.py:7 and :9 import the tournament models, which do not parse, and the undefined `RoundType`, so the module cannot be imported as written (see "Competition models" above); the model gives the code as it would run once the models parse.
- FixtureService.Forfeited: src/competitions/fixtures/service.py:7 and :9 import the tournament models, which do not parse, and the undefined `RoundType`, so the module cannot be imported as written (see "Competition models" above); the model gives the code as it would run once the models parse.
- FixtureService.ForfeitFixture: src/competitions/fixtures/service.py:7 and :9 import the tournament models, which do not parse, and the undefined `RoundType`, so the module cannot be imported as written (see "Competition models" above); the model gives the code as it would run once the models parse.
- FixtureService.CompleteCheck: src/competitions/fixtures/service.py:7 and :9 import the tournament models, which do not parse, and the undefined `RoundType`, so the module cannot be imported as written (see "Competition models" above); the model gives the code as it would run once the models parse.
- FixtureService.CompleteFixture: src/competitions/fixtures/service.py:7 and :9 import the tournament models, which do not parse, and the undefined `RoundType`, so the module cannot be imported as written (see "Competition models" above); the model gives the code as it would run once the models parse.
- FixtureService.AddPlayerCheck: src/competitions/fixtures/service.py:7 and :9 import the tournament models, which do not parse, and the undefined `RoundType`, so the module cannot be imported as written (see "Competition models" above); the model gives the code as it would run once the models parse.
- FixtureService.AddMatchPlayer: src/competitions/fixtures/service.py:7 and :9 import the tournament models, which do not parse, and the undefined `RoundType`, so the module cannot be imported as written (see "Competition models" above); the model gives the code as it would run once the models parse.
- CompetitionData.NumberedRound: the round queries it gives live in src/competitions/rounds/service.py, whose imports fail (:8-9: the undefined `RoundType` and the unparsable tournament models), so the module cannot be imported as written (see "Competition models" above); the model gives the code as it would run once the models parse.
- CompetitionData.RoundFixtureList: the round queries it gives live in src/competitions/rounds/service.py, whose imports fail (:8-9: the undefined `RoundType` and the unparsable tournament models), so the module cannot be imported as written (see "Competition models" above); the model gives the code as it would run once the models parse.
- SeasonService.IndexOf: src/competitions/season/service.py:4 imports the season models, which do not parse, so the module cannot be imported as written (see "Competition models" above); the model gives the code as it would run once the models parse.
- SeasonService.ActiveSeason: src/competitions/season/service.py:4 imports the season models, which do not parse, so the module cannot be imported as written (see "Competition models" above); the model gives the code as it would run once the models parse.
- SeasonService.FirstNamed: src/competitions/season/service.py:4 imports the season models, which do not parse, so the module cannot be imported as written (see "Competition models" above); the model gives the code as it would run once the models parse.
- SeasonService.SeasonTable.constructor: src/competitions/season/service.py:4 imports the season models, which do not parse, so the module cannot be imported as written (see "Competition models" above); the model gives the code as it would run once the models parse.
- SeasonService.SeasonTable.ByName: src/competitions/season/service.py:4 imports the season models, which do not parse, so the module cannot be imported as written (see "Competition models" above); the model gives the code as it would run once the models parse.
- SeasonService.SeasonTable.CreateSeason: src/competitions/season/service.py:4 imports the season models, which do not parse, so the module cannot be imported as written (see "Competition models" above); the model gives the code as it would run once the models parse.
- SeasonService.SeasonTable.Transition: src/competitions/season/service.py:4 imports the season models, which do not parse, so the module cannot be imported as written (see "Competition models" above); the model gives the code as it would run once the models parse.
- SeasonService.SeasonTable.StartSeason: src/competitions/season/service.py:4 imports the season models, which do not parse, so the module cannot be imported as written (see "Competition models" above); the model gives the code as it would run once the models parse.
- SeasonService.SeasonTable.CompleteSeason: src/competitions/season/service.py:4 imports the season models, which do not parse, so the module cannot be imported as written (see "Competition models" above); the model gives the code as it would run once the models parse.
- SeasonService.SeasonTable.ReopenSeason: src/competitions/season/service.py:4 imports the season models, which do not parse, so the module cannot be imported as written (see "Competition models" above); the model gives the code as it would run once the models parse.
- JoinRequests.ActiveRequest: src/teams/join_request/service.py:12 imports the season models, which do not parse, so the module cannot be imported as written (see "Competition models" above); the model gives the code as it would run once the models parse.
- JoinRequests.TeamRequests: src/teams/join_request/service.py:12 imports the season models, which do not parse, so the module cannot be imported as written (see "Competition models" above); the model gives the code as it would run once the models parse.
- JoinRequests.PlayerRequests: src/teams/join_request/service.py:12 imports the season models, which do not parse, so the module cannot be imported as written (see "Competition models" above); the model gives the code as it would run once the models parse.
- JoinRequests.Swept: src/teams/join_request/service.py:12 imports the season models, which do not parse, so the module cannot be imported as written (see "Competition models" above); the model gives the code as it would run once the models parse.
- JoinRequests.CleanupAsWritten: src/teams/join_request/service.py:12 imports the season models, which do not parse, so the module cannot be imported as written (see "Competition models" above); the model gives the code as it would run once the models parse.
- JoinRequests.JoinRequestService.constructor: src/teams/join_request/service.py:12 imports the season models, which do not parse, so the module cannot be imported as written (see "Competition models" above); the model gives the code as it would run once the models parse.
- JoinRequests.JoinRequestService.RejectRequest: src/teams/join_request/service.py:12 imports the season models, which do not parse, so the module cannot be imported as written (see "Competition models" above); the model gives the code as it would run once the models parse.
- JoinRequests.JoinRequestService.CancelRequest: src/teams/join_request/service.py:12 imports the season models, which do not parse, so the module cannot be imported as written (see "Competition models" above); the model gives the code as it would run once the models parse.
- JoinRequests.JoinRequestService.CleanupExpiredRequests: src/teams/join_request/service.py:12 imports the season models, which do not parse, so the module cannot be imported as written (see "Competition models" above); the model gives the code as it would run once the models parse.
- Rosters.PreviousEntries: src/teams/service/roster.py:14 and :20 import the season service and the season models, which do not parse, so the module cannot be imported as written (see "Competition models" above); the model gives the code as it would run once the models parse.
- Rosters.Histories: src/teams/service/roster.py:14 and :20 import the season service and the season models, which do not parse, so the module cannot be imported as written (see "Competition models" above); the model gives the code as it would run once the models parse.
- Rosters.ChangeRosterStatusAsWritten: src/teams/service/roster.py:14 and :20 import the season service and the season models, which do not parse, so the module cannot be imported as written (see "Competition models" above); the model gives the code as it would run once the models parse.
- Rosters.RosterService.constructor: src/teams/service/roster.py:14 and :20 import the season service and the season models, which do not parse, so the module cannot be imported as written (see "Competition models" above); the model gives the code as it would run once the models parse.
- PermissionReport.AllIssues: utils/permissions/reporter.py:15 imports the tournament models, which do not parse, so the module cannot be imported as written (see "Competition models" above); the model gives the code as it would run once the models parse.
- PermissionReport.AddValues: utils/permissions/reporter.py:15 imports the tournament models, which do not parse, so the module cannot be imported as written (see "Competition models" above); the model gives the code as it would run once the models parse.
- PermissionReport.Distribution: utils/permissions/reporter.py:15 imports the tournament models, which do not parse, so the module cannot be imported as written (see "Competition models" above); the model gives the code as it would run once the models parse.
- PermissionReport.CountIssues: utils/permissions/reporter.py:15 imports the tournament models, which do not parse, so the module cannot be imported as written (see "Competition models" above); the model gives the code as it would run once the models parse.
- PermissionReport.Frequencies: utils/permissions/reporter.py:15 imports the tournament models, which do not parse, so the module cannot be imported as written (see "Competition models" above); the model gives the code as it would run once the models parse.
- PermissionReport.GenerateSummaryReport: utils/permissions/reporter.py:15 imports the tournament models, which do not parse, so the module cannot be imported as written (see "Competition models" above); the model gives the code as it would run once the models parse.
- PermissionAudit.PermissionAuditor.Exists: utils/permissions/auditor.py:10 imports the tournament models, which do not parse, so the module cannot be imported as written (see "Competition models" above); the model gives the code as it would run once the models parse.
- PermissionAudit.PermissionAuditor.MissingIssues: utils/permissions/auditor.py:10 imports the tournament models, which do not parse, so the module cannot be imported as written (see "Competition models" above); the model gives the code as it would run once the models parse.
- PermissionAudit.PermissionAuditor.RedundantIssues: utils/permissions/auditor.py:10 imports the tournament models, which do not parse, so the module cannot be imported as written (see "Competition models" above); the model gives the code as it would run once the models parse.
- PermissionAudit.PermissionAuditor.Classify: utils/permissions/auditor.py:10 imports the tournament models, which do not parse, so the module cannot be imported as written (see "Competition models" above); the model gives the code as it would run once the models parse.
- PermissionAudit.PermissionAuditor.AuditsOfAt: utils/permissions/auditor.py:10 imports the tournament models, which do not parse, so the module cannot be imported as written (see "Competition models" above); the model gives the code as it would run once the models parse.
Code followed where it differs from the stated design:

- The join-request creation rule accepts any previous status, so an expired, rejected or cancelled request can be reopened (JoinRequests rules, `JoinReopens`).
- The suspension validator compares with the upper-case `SUSPENDED`, so it never applies to player statuses, which are lower case.
- Captain status rules check `manage_team` at global scope, not at the team's scope.
- Result confirmation and dispute compare the acting player's id with team 1's id (`OpposingTeamIsTeam1`), so the "opposing captain" rule is the code's comparison.
- The round-robin strategy computes a rotation it never reads, so every round has the same pairings.
- The single-elimination strategy generates fixtures for round 1 only, also when knockout round completion asks it for a later round.
- A BO1 lobby of the current version never leaves `ready`: its start transition names a `pick_phase` state the table does not declare.
- After a pick the current lobby does not hand the turn to the other team.

## Findings

| source | as written | input that shows it | evidently intended | confidence | as-written member | corrected member |
|---|---|---|---|---|---|---|
| src/competitions/rounds/service.py:268 | `extend_round_deadline` and `reopen_round` (also :338) read and write `round.admin_notes`, which the round table (src/competitions/models/rounds.py:9-24) does not declare, so every extension or reopen that passes the guards raises and is rolled back | an active round ending at 10 extended to 20 | the round table carries admin notes and the logged line is appended | not executed | RoundService.ExtendAsWritten, RoundService.ExtendCounterexample, RoundService.ReopenAsWritten, RoundService.ReopenCounterexample | RoundService.ExtendRoundDeadline, RoundService.ReopenRound |
| src/fixtures/service.py:199-213 | `determine_winners` treats a bye fixture (no second team, no result) like a draw and raises (besides, the module does not import at all: see "Legacy engine" under Left out) | a knockout of three teams, whose first round has a bye | the team with the bye advances | not executed | LegacyResults.WinnersAsWritten, LegacyResults.ByeStopsNextRoundAsWritten | LegacyResults.Winners, LegacyResults.ByeAdvances |
| src/fixtures/service.py:70 | the bare `fixture_data_dict['round']` raises a KeyError, so no fixture is ever created (besides, the module does not import at all: see "Legacy engine" under Left out) | any create request | the round is read from the request and the fixture is created | not executed | LegacyFixtures.CreateFixtureAsWrittenNeverCreates, LegacyFixtures.CreateFixtureAsWrittenExample | LegacyFixtures.CreateFixture, LegacyFixtures.CreateFixtureCorrectsAsWritten |
| src/competitions/fixtures/service.py:242-245 | after forfeiting the last open fixture the round counts as finished, but `complete_round` (src/competitions/rounds/service.py:141-160) demands every fixture COMPLETED and so raises | forfeiting the last scheduled fixture of an active round | forfeited fixtures count as finished for round completion | not executed | FixtureService.RoundCompletionAsWritten, FixtureService.ForfeitThenCompletionFails, FixtureService.ForfeitLastFixtureExample | FixtureService.RoundCompletion, FixtureService.CompletionAgreesWithoutForfeits |
| src/competitions/tournament/service.py:119-124 | `format_config` is a required field of `TournamentUpdate` (schemas.py:28), so it is always among the set fields and `update_tournament` always hands the validator a plain dict, which fails with an attribute error: every update of a NOT_STARTED tournament fails | any update of a NOT_STARTED tournament, e.g. a valid regular configuration | the merged tournament is validated | not executed | TournamentService.UpdateAsWritten, TournamentService.UpdateAsWrittenCounterexample, TournamentService.UpdateAsWrittenRefusesValidConfig | TournamentService.Update |
| src/competitions/tournament/service.py:424 | `review_registration` reads `review.notes`, a field the review lacks, so every review fails | any PENDING registration | the review's status and notes are recorded | not executed | TournamentService.ReviewAsWritten, TournamentService.ReviewAsWrittenNeverSucceeds | TournamentService.ReviewRegistrationRecord |
| src/fixtures/MapPicker/state_machine.py:33 | `len(map != 1)` takes the length of a boolean and raises, in both lobby versions (old_code/fixtures/MapPicker/state_machine.py:37) | a pool of one map, looked up by its name | the unique map of that name, or none | not executed | MapPicker.MapByNameAsWritten, MapPicker.LookupOfOnlyMapAsWritten | MapPicker.MapIndex, MapPicker.FoundByName |
| src/fixtures/MapPicker/state_machine.py:386 | `if team_idx:` treats index 0 as not found, so a player cannot join team 1 by name | joining the first team | the first team is found (the older lobby compares with `None`, old_code/fixtures/MapPicker/state_machine.py:478) | not executed | MapPicker.JoinFirstTeamAsWritten | MapPicker.JoinedKeepsTeams |
| src/teams/join_request/service.py:208-211 | `.all()` yields row tuples, and assigning a status to a tuple fails, so no expired request is swept | the expired-request scenario of test/teams/test_joining_workflow.py:344-378 | every pending request past its expiry becomes EXPIRED | not executed | JoinRequests.CleanupAsWritten, JoinRequests.CleanupCounterexample | JoinRequests.JoinRequestService.CleanupExpiredRequests, JoinRequests.SweepIdempotent |
| src/admin/service.py:82 | the status call passes `entity=` where the parameter is named `player_id`, so banning and revoking (line 123) fail with a type error | banning any active player | the player's status changes to banned, or back | not executed | Admin.BanPlayerAsWritten, Admin.RevokeBanAsWritten, Admin.BanCounterexample | Admin.AdminService.BanPlayer, Admin.AdminService.RevokeBan |
| src/upload/service.py:93 | `path.parents()` calls a sequence, which is not callable, so every non-empty final id fails | final id "logo" | as the comment says, a final id with a directory part is refused and a plain name passes (`len(path.parents) > 0` would not do it: the parents of "logo" hold ".") | not executed | Upload.FinalIdRefusalAsWritten, Upload.FinalIdCounterexample | Upload.FinalIdRefusal, Upload.UploadService.ValidateUploadToken |
| src/auth/service.py:63 | the player lookup by uid calls `session.executeute`, which does not exist (the lookups by email and by steam id at lines 69 and 75 do the same) | looking up any player id | the player with that id, or none | not executed | Accounts.AccountIndexAsWritten, Accounts.LookupCounterexample | Accounts.AccountIndex |
| src/status/service.py:101 | the history entry, and the entity's changed-by field (line 116), read `actor.id`, but the player record has only a `uid`, so every transition that passes validation raises; a rule listing permissions raises earlier, in the grant lookup (src/auth/service/permission.py:127) | an admin holding manage_bans banning an ACTIVE player | the status changes and the actor's key is recorded | not executed | StatusFramework.AttemptAsWritten, Admin.TransitionCounterexample | StatusFramework.Attempt, StatusFramework.TransitionService.TransitionStatus |
| src/teams/service/roster.py:284 | `change_roster_status` passes `transition_status` an `audit_context` keyword that it does not take, and so does `change_captain_status` (src/teams/service/captain.py:148), so every roster and captain status change raises a type error | a player leaving their own team; a team manager disbanding an ACTIVE captain record | the move is decided by the rule table and, when accepted, applied | not executed | Rosters.ChangeRosterStatusAsWritten, Rosters.LeaveTeamCounterexample, Captains.ChangeCaptainStatusAsWritten, Captains.DisbandCaptainCounterexample | Rosters.RosterService.ChangeRosterStatus, Captains.CaptainService.ChangeCaptainStatus |
