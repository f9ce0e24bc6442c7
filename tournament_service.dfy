/** `TournamentService`: the lifecycle of a tournament (update, structure
    generation, start, round completion, completion and cancellation) and of
    its registrations (request, review, withdrawal).

    Every operation checks its guards before it writes anything, so an
    operation that fails leaves every table as it was. The audit wrapper of
    the audited operations is not modelled; it commits a change before it
    calls its details extractor, and nested audited calls commit
    separately. */
module TournamentService {
  import opened Common
  import opened CompetitionData
  import opened TournamentValidator
  import opened GenerationStrategies

  /** `TournamentServiceError`, and the other exceptions the lifecycle
      operations let escape. */
  datatype TournamentError =
    | TournamentNotFound
    | HasStarted
    | NotRegistrationClosed
    | NotInProgress
    | AlreadyCompleted
    | ConfigCheckCrashed
    | Invalid(validation: ValidationError)
    | GenerationFailed(generation: GenerationError)
    | NoRoundsGenerated
    | NoFirstRound
    | RoundNotFound
    | FixturesUnfinished
    | ForfeitWithoutWinner(fixture: Id)
    | NoResult(fixture: Id)
    | WinnerNotATeam

  /** `RegistrationError`, and the other exceptions the registration
      operations let escape. */
  datatype RegistrationError =
    | TournamentMissing
    | TeamNotFound
    | RegistrationNotOpen
    | LateEndMissing
    | AlreadyRegistered
    | NotCaptain
    | ShortRoster
    | TournamentFull
    | RegistrationNotFound
    | NotPending
    | ReviewNotesMissing
    | WithdrawalNotAllowed

  // ---------------------------------------------------------------------
  // update_tournament

  /** A `TournamentUpdate`. `name` and `max_team_size` default to None, so
      None means the field was not set. `format_config` has no default, which
      makes it a required field: every update carries it, and None is an
      explicit null. The map pool, also required, is not part of this
      model. */
  datatype TournamentUpdate = TournamentUpdate(
    name: Option<string>,
    maxTeamSize: Option<int>,
    formatConfig: Option<map<string, ConfigValue>>)

  /** The tournament merged with an update: the set fields replace the
      stored ones. A null configuration is merged as an empty one; the
      configuration check treats the two alike, and refuses both. */
  function ApplyUpdate(t: Tournament, u: TournamentUpdate): (r: Tournament)
    ensures r.name == (if u.name.Some? then u.name.value else t.name)
    ensures r.maxTeamSize == (if u.maxTeamSize.Some? then u.maxTeamSize.value else t.maxTeamSize)
    ensures r.formatConfig == (if u.formatConfig.Some? then u.formatConfig.value else map[])
    ensures r == t.(name := r.name, maxTeamSize := r.maxTeamSize, formatConfig := r.formatConfig)
  {
    var t1 := if u.name.Some? then t.(name := u.name.value) else t;
    var t2 := if u.maxTeamSize.Some? then t1.(maxTeamSize := u.maxTeamSize.value) else t1;
    t2.(formatConfig := if u.formatConfig.Some? then u.formatConfig.value else map[])
  }

  /** `update_tournament` as written: `format_config` is always among the
      set fields, so the validator is always called, is handed a plain
      dictionary, reads `.format_config` off it and raises AttributeError.
      No update succeeds. */
  function UpdateAsWritten(t: Tournament, u: TournamentUpdate): (r: Result<Tournament, TournamentError>)
    ensures r.Err?
    ensures t.state != NotStarted ==> r == Err(HasStarted)
    ensures t.state == NotStarted ==> r == Err(ConfigCheckCrashed)
  {
    if t.state != NotStarted then Err(HasStarted)
    else Err(ConfigCheckCrashed)
  }

  /** `update_tournament` as intended: only a NOT_STARTED tournament is
      updated, and the merged tournament must pass the configuration check,
      so a null configuration is refused. */
  function Update(t: Tournament, u: TournamentUpdate): (r: Result<Tournament, TournamentError>)
    ensures r.Ok? <==> t.state == NotStarted && ValidateTournamentConfig(ApplyUpdate(t, u)).Pass?
    ensures r.Ok? ==> u.formatConfig.Some? && r.value.formatConfig == u.formatConfig.value
    ensures r.Ok? ==> r.value == ApplyUpdate(t, u) && r.value.state == NotStarted
    ensures t.state == NotStarted && u.formatConfig.None? ==> r == Err(Invalid(MissingFormatConfig))
    ensures r.Err? && t.state != NotStarted ==> r.error == HasStarted
  {
    if t.state != NotStarted then Err(HasStarted)
    else if ValidateTournamentConfig(ApplyUpdate(t, u)).Fail? then
      Err(Invalid(ValidateTournamentConfig(ApplyUpdate(t, u)).error))
    else Ok(ApplyUpdate(t, u))
  }

  /** The two agree on a tournament that has started; every update the
      intended version accepts is refused as written. */
  lemma UpdateAsWrittenRefusesValidConfig(t: Tournament, u: TournamentUpdate)
    ensures t.state != NotStarted ==> UpdateAsWritten(t, u) == Update(t, u)
    ensures Update(t, u).Ok? ==> UpdateAsWritten(t, u) == Err(ConfigCheckCrashed)
  {
  }

  /** A concrete update that shows the difference: a new, valid regular
      configuration for a regular tournament that has not started. */
  lemma UpdateAsWrittenCounterexample(t: Tournament)
    requires t.state == NotStarted && t.ttype == Regular
    ensures var u := TournamentUpdate(None, None, Some(map["teams_per_group" := IntValue(4), "match_format" := StrValue("bo3")]));
      UpdateAsWritten(t, u) == Err(ConfigCheckCrashed) && Update(t, u).Ok?
  {
    var u := TournamentUpdate(None, None, Some(map["teams_per_group" := IntValue(4), "match_format" := StrValue("bo3")]));
    assert ApplyUpdate(t, u).formatConfig != map[] by {
      assert "match_format" in ApplyUpdate(t, u).formatConfig;
    }
  }

  method UpdateTournament(db: CompetitionDb, tid: Id, u: TournamentUpdate) returns (r: Result<Tournament, TournamentError>)
    requires tid in db.tournaments
    modifies db`tournaments
    ensures r == Update(old(db.tournaments[tid]), u)
    ensures r.Ok? ==> db.tournaments == old(db.tournaments)[tid := r.value]
    ensures r.Err? ==> db.tournaments == old(db.tournaments)
  {
    r := Update(db.tournaments[tid], u);
    if r.Ok? {
      db.tournaments := db.tournaments[tid := r.value];
    }
  }

  // ---------------------------------------------------------------------
  // generate_tournament_structure

  /** `_get_registered_teams`: the teams with an APPROVED registration for
      `tid`, in ascending id order. */
  function RegisteredTeams(regs: map<Id, Registration>, tid: Id): (teams: seq<Id>)
    ensures forall team :: team in teams <==>
      exists rid :: rid in regs && regs[rid].tournamentId == tid && regs[rid].status == Approved && regs[rid].teamId == team
  {
    Ordered(set rid | rid in regs && regs[rid].tournamentId == tid && regs[rid].status == Approved :: regs[rid].teamId)
  }

  /** The roster size of a team; a team without an entry has none. */
  function RosterOf(rosterSize: map<Id, nat>, team: Id): nat
  {
    if team in rosterSize then rosterSize[team] else 0
  }

  /** `len(team.rosters)` for each team, in order. */
  function RosterCounts(rosterSize: map<Id, nat>, teams: seq<Id>): (counts: seq<nat>)
    ensures |counts| == |teams|
    ensures forall i :: 0 <= i < |teams| ==> counts[i] == RosterOf(rosterSize, teams[i])
  {
    seq(|teams|, i requires 0 <= i < |teams| => RosterOf(rosterSize, teams[i]))
  }

  function RoundTypeOf(s: Strategy): RoundType
  {
    match s
    case RoundRobin => GroupStage
    case SingleElimination => KnockoutStage
  }

  /** The number of rounds a strategy generates for n teams. */
  function RoundCount(s: Strategy, n: nat): nat
  {
    match s
    case RoundRobin => if n == 0 then 0 else 2 * (n - 1)
    case SingleElimination => BitLength(n - 1)
  }

  /** The first `count` planned rounds. */
  function PlannedRounds(tid: Id, t: Tournament, rtype: RoundType, count: nat): (rounds: seq<Round>)
    ensures |rounds| == count
    ensures forall i :: 0 <= i < count ==> rounds[i] == PlannedRound(tid, t, rtype, i)
  {
    seq(count, i requires 0 <= i < count => PlannedRound(tid, t, rtype, i))
  }

  /** The checks `generate_tournament_structure` makes once the tournament is
      known to be REGISTRATION_CLOSED, in the order it makes them: the
      configuration, the dates, the teams, the strategy, the strategy's team
      count, the generated rounds' dates, and finally `rounds[0]`, which
      raises IndexError when no round was generated. */
  function GenerationCheck(tid: Id, t: Tournament, teams: seq<Id>, rosterCounts: seq<nat>, now: Time): (r: Outcome<TournamentError>)
    ensures r.Pass? ==>
      && ValidateTournamentConfig(t).Pass? && ValidateTournamentDates(t, now).Pass?
      && ValidateTeams(rosterCounts, t).Pass? && t.ttype != Pug
      && RoundCount(GetGenerationStrategy(t.ttype).value, |teams|) > 0
  {
    if ValidateTournamentConfig(t).Fail? then Fail(Invalid(ValidateTournamentConfig(t).error))
    else if ValidateTournamentDates(t, now).Fail? then Fail(Invalid(ValidateTournamentDates(t, now).error))
    else if ValidateTeams(rosterCounts, t).Fail? then Fail(Invalid(ValidateTeams(rosterCounts, t).error))
    else match GetGenerationStrategy(t.ttype)
      case Err(e) => Fail(GenerationFailed(e))
      case Ok(s) =>
        if ValidateTeamCount(|teams|, t.minTeams, t.maxTeams).Fail? then
          Fail(GenerationFailed(ValidateTeamCount(|teams|, t.minTeams, t.maxTeams).error))
        else
          var rounds := PlannedRounds(tid, t, RoundTypeOf(s), RoundCount(s, |teams|));
          if ValidateRoundDates(rounds, t).Fail? then Fail(Invalid(ValidateRoundDates(rounds, t).error))
          else if rounds == [] then Fail(NoRoundsGenerated)
          else Pass
  }

  /** Once `validate_teams` has passed for the tournament's own team list,
      the strategies' team-count check cannot fail. */
  lemma TeamCheckSubsumesCount(rosterCounts: seq<nat>, t: Tournament)
    requires ValidateTeams(rosterCounts, t).Pass?
    ensures ValidateTeamCount(|rosterCounts|, t.minTeams, t.maxTeams).Pass?
  {
  }

  /** `session.add_all(rows)`: each row is stored under a fresh id. */
  method AddRows<T>(table: map<Id, T>, rows: seq<T>) returns (table': map<Id, T>, ids: seq<Id>)
    ensures |ids| == |rows|
    ensures forall i :: 0 <= i < |ids| ==> ids[i] !in table && ids[i] in table' && table'[ids[i]] == rows[i]
    ensures forall i, j :: 0 <= i < j < |ids| ==> ids[i] != ids[j]
    ensures forall id :: id in table' <==> id in table || id in ids
    ensures forall id :: id in table ==> table'[id] == table[id]
  {
    table', ids := table, [];
    var i := 0;
    while i < |rows|
      invariant 0 <= i <= |rows| && |ids| == i
      invariant forall k :: 0 <= k < i ==> ids[k] !in table && ids[k] in table' && table'[ids[k]] == rows[k]
      invariant forall k, j :: 0 <= k < j < i ==> ids[k] != ids[j]
      invariant forall id :: id in table' <==> id in table || id in ids
      invariant forall id :: id in table ==> table'[id] == table[id]
    {
      var id := FreshId(table'.Keys);
      table' := table'[id := rows[i]];
      ids := ids + [id];
      i := i + 1;
    }
  }

  /** A fixture the strategies generate for tournament `tid` in round `rid`. */
  predicate GeneratedFor(f: Fixture, tid: Id) { f.tournamentId == tid && f.status == FixtureStatus.Scheduled && f.forfeitWinner.None? }

  /** The fixtures strategy `s` generates for one round. */
  function StrategyPairing(s: Strategy, tid: Id, t: Tournament, roundId: Id, round: Round, teams: seq<Id>): seq<Fixture>
  {
    match s
    case RoundRobin => RoundRobinPairing(tid, t, roundId, round, teams)
    case SingleElimination => SingleEliminationPairing(tid, t, roundId, round, teams)
  }

  /** The fixtures of every round, round after round, each round's under its
      id. */
  function RoundsFixtures(s: Strategy, tid: Id, t: Tournament, ids: seq<Id>, rounds: seq<Round>, teams: seq<Id>): seq<Fixture>
    requires |ids| == |rounds|
    decreases |rounds|
  {
    if rounds == [] then []
    else RoundsFixtures(s, tid, t, ids[..|ids| - 1], rounds[..|rounds| - 1], teams)
         + StrategyPairing(s, tid, t, ids[|ids| - 1], rounds[|rounds| - 1], teams)
  }

  /** A round-robin structure has half the teams' count of fixtures in each
      round. */
  lemma {:induction false} RoundRobinFixtureCount(tid: Id, t: Tournament, ids: seq<Id>, rounds: seq<Round>, teams: seq<Id>)
    requires |ids| == |rounds|
    ensures |RoundsFixtures(RoundRobin, tid, t, ids, rounds, teams)| == |rounds| * (|teams| / 2)
    decreases |rounds|
  {
    if rounds != [] {
      var n := |rounds| - 1;
      RoundRobinFixtureCount(tid, t, ids[..n], rounds[..n], teams);
      var h := |teams| / 2;
      var prev := RoundsFixtures(RoundRobin, tid, t, ids[..n], rounds[..n], teams);
      var last := RoundRobinPairing(tid, t, ids[n], rounds[n], teams);
      assert RoundsFixtures(RoundRobin, tid, t, ids, rounds, teams) == prev + last;
      assert |last| == h;
      assert |prev| == n * h;
      MulSucc(n, h);
    }
  }

  /** One more round appends that round's fixtures. */
  lemma RoundsFixturesSnoc(s: Strategy, tid: Id, t: Tournament, ids: seq<Id>, rounds: seq<Round>, teams: seq<Id>, i: nat)
    requires |ids| == |rounds| && i < |rounds|
    ensures RoundsFixtures(s, tid, t, ids[..i + 1], rounds[..i + 1], teams)
         == RoundsFixtures(s, tid, t, ids[..i], rounds[..i], teams) + StrategyPairing(s, tid, t, ids[i], rounds[i], teams)
  {
    assert ids[..i + 1][..i] == ids[..i] && rounds[..i + 1][..i] == rounds[..i];
  }

  lemma MulSucc(n: nat, h: nat)
    ensures n * h + h == (n + 1) * h
  {
  }

  /** One strategy's `generate_fixtures` call. */
  method StrategyFixtures(s: Strategy, tid: Id, t: Tournament, roundId: Id, round: Round, teams: seq<Id>)
    returns (fixtures: seq<Fixture>)
    ensures fixtures == StrategyPairing(s, tid, t, roundId, round, teams)
    ensures forall k :: 0 <= k < |fixtures| ==> GeneratedFor(fixtures[k], tid) && fixtures[k].roundId == roundId
    ensures s == RoundRobin ==> |fixtures| == |teams| / 2
    ensures s == SingleElimination && round.roundNumber != 1 ==> fixtures == []
  {
    match s
    case RoundRobin =>
      fixtures := RoundRobinFixtures(tid, t, roundId, round, teams);
      forall k | 0 <= k < |fixtures|
        ensures GeneratedFor(fixtures[k], tid) && fixtures[k].roundId == roundId
      {
        assert fixtures[k] == PlannedFixture(tid, t, roundId, round, teams[k], Some(teams[k + (|teams| + 1) / 2]), "bo1");
      }
    case SingleElimination =>
      fixtures := SingleEliminationFixtures(tid, t, roundId, round, teams);
      if round.roundNumber == 1 {
        ghost var start := FirstPlayedPair(Pow2(BitLength(|teams| - 1)) - |teams|);
        forall k | 0 <= k < |fixtures|
          ensures GeneratedFor(fixtures[k], tid) && fixtures[k].roundId == roundId
        {
          assert fixtures[k] == KnockoutFixture(tid, t, roundId, round, teams, start, k);
        }
      }
  }

  /** The fixture loop of `generate_tournament_structure`: every round's
      fixtures, round after round. */
  method AllFixtures(s: Strategy, tid: Id, t: Tournament, ids: seq<Id>, rounds: seq<Round>, teams: seq<Id>)
    returns (all: seq<Fixture>)
    requires |ids| == |rounds|
    ensures all == RoundsFixtures(s, tid, t, ids, rounds, teams)
    ensures forall k :: 0 <= k < |all| ==> GeneratedFor(all[k], tid) && all[k].roundId in ids
  {
    all := [];
    var i := 0;
    while i < |rounds|
      invariant 0 <= i <= |rounds|
      invariant all == RoundsFixtures(s, tid, t, ids[..i], rounds[..i], teams)
      invariant forall k :: 0 <= k < |all| ==> GeneratedFor(all[k], tid) && all[k].roundId in ids
    {
      var fixtures := StrategyFixtures(s, tid, t, ids[i], rounds[i], teams);
      RoundsFixturesSnoc(s, tid, t, ids, rounds, teams, i);
      all := all + fixtures;
      i := i + 1;
    }
    assert ids[..i] == ids && rounds[..i] == rounds;
  }

  /** Every row of `before` is still in `after`, unchanged. */
  predicate Keeps<T(==)>(before: map<Id, T>, after: map<Id, T>)
  {
    forall id :: id in before ==> id in after && after[id] == before[id]
  }

  /** `rows` were added to `before`, row i under the fresh id `ids[i]`, and
      nothing else changed. */
  ghost predicate AddedUnder<T>(before: map<Id, T>, after: map<Id, T>, rows: seq<T>, ids: seq<Id>)
  {
    && |ids| == |rows|
    && (forall i :: 0 <= i < |ids| ==> ids[i] !in before && ids[i] in after && after[ids[i]] == rows[i])
    && (forall i, j :: 0 <= i < j < |ids| ==> ids[i] != ids[j])
    && (forall id :: id in after <==> id in before || id in ids)
    && Keeps(before, after)
  }

  /** Every row of `rows` was added to `before` under a fresh id of its own,
      and nothing else changed. */
  ghost predicate StoresAll<T>(before: map<Id, T>, after: map<Id, T>, rows: seq<T>)
  {
    exists ids: seq<Id> :: AddedUnder(before, after, rows, ids)
  }

  /** The structure `generate_tournament_structure` saves: the rounds, each
      under a fresh id, and then exactly the fixtures strategy `s` generates
      for those rounds, round after round. */
  ghost predicate StoresStructure(roundsBefore: map<Id, Round>, roundsAfter: map<Id, Round>,
                                  fixturesBefore: map<Id, Fixture>, fixturesAfter: map<Id, Fixture>,
                                  s: Strategy, tid: Id, t: Tournament, rounds: seq<Round>, teams: seq<Id>)
  {
    exists rids: seq<Id> ::
      && AddedUnder(roundsBefore, roundsAfter, rounds, rids)
      && |rids| == |rounds|
      && StoresAll(fixturesBefore, fixturesAfter, RoundsFixtures(s, tid, t, rids, rounds, teams))
  }

  /** The structure of strategy `s` for `teams`: its planned rounds and
      their fixtures. */
  ghost predicate StoresPlannedStructure(roundsBefore: map<Id, Round>, roundsAfter: map<Id, Round>,
                                         fixturesBefore: map<Id, Fixture>, fixturesAfter: map<Id, Fixture>,
                                         s: Strategy, tid: Id, t: Tournament, teams: seq<Id>)
  {
    StoresStructure(roundsBefore, roundsAfter, fixturesBefore, fixturesAfter, s, tid, t,
                    PlannedRounds(tid, t, RoundTypeOf(s), RoundCount(s, |teams|)), teams)
  }

  /** Every round added to `before` is one of the first `count` planned
      rounds of `tid`. */
  ghost predicate AddsOnlyPlannedRounds(before: map<Id, Round>, after: map<Id, Round>, tid: Id, t: Tournament, rtype: RoundType, count: nat)
  {
    forall rid :: rid in after && rid !in before ==>
      1 <= after[rid].roundNumber <= count && after[rid] == PlannedRound(tid, t, rtype, after[rid].roundNumber - 1)
  }

  /** Each of the first `count` planned rounds of `tid` was added to `before`. */
  ghost predicate AddsEveryPlannedRound(before: map<Id, Round>, after: map<Id, Round>, tid: Id, t: Tournament, rtype: RoundType, count: nat)
  {
    forall i :: 0 <= i < count ==> PlannedRound(tid, t, rtype, i) in AddedRows(before, after)
  }

  /** Every fixture added to `before` is a generated fixture of `tid` in one
      of the rounds added to `roundsBefore`. */
  ghost predicate AddsGeneratedFixtures(before: map<Id, Fixture>, after: map<Id, Fixture>, tid: Id,
                                        roundsBefore: map<Id, Round>, roundsAfter: map<Id, Round>)
  {
    forall fid :: fid in after && fid !in before ==>
      GeneratedFor(after[fid], tid) && after[fid].roundId in roundsAfter && after[fid].roundId !in roundsBefore
  }

  lemma SavedRoundsArePlanned(before: map<Id, Round>, after: map<Id, Round>, ids: seq<Id>, rounds: seq<Round>,
                              tid: Id, t: Tournament, rtype: RoundType)
    requires |ids| == |rounds|
    requires forall i :: 0 <= i < |rounds| ==> rounds[i] == PlannedRound(tid, t, rtype, i)
    requires forall i :: 0 <= i < |ids| ==> ids[i] !in before && ids[i] in after && after[ids[i]] == rounds[i]
    requires forall rid :: rid in after <==> rid in before || rid in ids
    ensures AddsOnlyPlannedRounds(before, after, tid, t, rtype, |rounds|)
  {
    forall rid | rid in after && rid !in before
      ensures 1 <= after[rid].roundNumber <= |rounds| && after[rid] == PlannedRound(tid, t, rtype, after[rid].roundNumber - 1)
    {
      var i :| 0 <= i < |ids| && ids[i] == rid;
      assert after[rid] == PlannedRound(tid, t, rtype, i);
    }
  }

  lemma SavedRoundsAreAll(before: map<Id, Round>, after: map<Id, Round>, ids: seq<Id>, rounds: seq<Round>,
                          tid: Id, t: Tournament, rtype: RoundType)
    requires |ids| == |rounds|
    requires forall i :: 0 <= i < |rounds| ==> rounds[i] == PlannedRound(tid, t, rtype, i)
    requires forall i :: 0 <= i < |ids| ==> ids[i] !in before && ids[i] in after && after[ids[i]] == rounds[i]
    ensures AddsEveryPlannedRound(before, after, tid, t, rtype, |rounds|)
  {
    forall i | 0 <= i < |rounds|
      ensures PlannedRound(tid, t, rtype, i) in AddedRows(before, after)
    {
      var rid := ids[i];
      assert rid in after && rid !in before;
      assert after[rid] == rounds[i];
    }
  }

  /** `session.add_all` of the generated rounds, then of every round's
      fixtures. */
  method SaveStructure(roundTable: map<Id, Round>, fixtureTable: map<Id, Fixture>, s: Strategy, tid: Id, t: Tournament,
                       rounds: seq<Round>, teams: seq<Id>)
    returns (roundTable': map<Id, Round>, fixtureTable': map<Id, Fixture>)
    requires forall i :: 0 <= i < |rounds| ==> rounds[i] == PlannedRound(tid, t, RoundTypeOf(s), i)
    ensures Keeps(roundTable, roundTable') && Keeps(fixtureTable, fixtureTable')
    ensures AddsOnlyPlannedRounds(roundTable, roundTable', tid, t, RoundTypeOf(s), |rounds|)
    ensures AddsEveryPlannedRound(roundTable, roundTable', tid, t, RoundTypeOf(s), |rounds|)
    ensures AddsGeneratedFixtures(fixtureTable, fixtureTable', tid, roundTable, roundTable')
    ensures StoresStructure(roundTable, roundTable', fixtureTable, fixtureTable', s, tid, t, rounds, teams)
  {
    var ids;
    roundTable', ids := AddRows(roundTable, rounds);
    assert AddedUnder(roundTable, roundTable', rounds, ids);
    SavedRoundsArePlanned(roundTable, roundTable', ids, rounds, tid, t, RoundTypeOf(s));
    SavedRoundsAreAll(roundTable, roundTable', ids, rounds, tid, t, RoundTypeOf(s));
    var all := AllFixtures(s, tid, t, ids, rounds, teams);
    forall k | 0 <= k < |all|
      ensures all[k].roundId in roundTable' && all[k].roundId !in roundTable
    {
      assert all[k].roundId in ids;
      var i :| 0 <= i < |ids| && ids[i] == all[k].roundId;
    }
    fixtureTable' := AddGeneratedFixtures(fixtureTable, all, tid, roundTable, roundTable');
    assert StoresAll(fixtureTable, fixtureTable', RoundsFixtures(s, tid, t, ids, rounds, teams));
  }

  /** Stores generated fixtures of `tid` whose rounds are new rounds. */
  method AddGeneratedFixtures(fixtureTable: map<Id, Fixture>, all: seq<Fixture>, tid: Id,
                              roundTable: map<Id, Round>, roundTable': map<Id, Round>)
    returns (fixtureTable': map<Id, Fixture>)
    requires forall k :: 0 <= k < |all| ==>
      GeneratedFor(all[k], tid) && all[k].roundId in roundTable' && all[k].roundId !in roundTable
    ensures Keeps(fixtureTable, fixtureTable')
    ensures AddsGeneratedFixtures(fixtureTable, fixtureTable', tid, roundTable, roundTable')
    ensures StoresAll(fixtureTable, fixtureTable', all)
  {
    var fids;
    fixtureTable', fids := AddRows(fixtureTable, all);
    assert AddedUnder(fixtureTable, fixtureTable', all, fids);
    forall fid | fid in fixtureTable' && fid !in fixtureTable
      ensures GeneratedFor(fixtureTable'[fid], tid) && fixtureTable'[fid].roundId in roundTable' && fixtureTable'[fid].roundId !in roundTable
    {
      var k :| 0 <= k < |fids| && fids[k] == fid;
      assert fixtureTable'[fid] == all[k];
    }
  }

  /** The rounds of strategy `s` for `teams`, and their fixtures, added to
      the round and fixture tables. */
  method BuildStructure(roundTable: map<Id, Round>, fixtureTable: map<Id, Fixture>, s: Strategy, tid: Id, t: Tournament, teams: seq<Id>)
    returns (roundTable': map<Id, Round>, fixtureTable': map<Id, Fixture>)
    requires ValidateTeamCount(|teams|, t.minTeams, t.maxTeams).Pass?
    ensures Keeps(roundTable, roundTable') && Keeps(fixtureTable, fixtureTable')
    ensures AddsOnlyPlannedRounds(roundTable, roundTable', tid, t, RoundTypeOf(s), RoundCount(s, |teams|))
    ensures AddsEveryPlannedRound(roundTable, roundTable', tid, t, RoundTypeOf(s), RoundCount(s, |teams|))
    ensures AddsGeneratedFixtures(fixtureTable, fixtureTable', tid, roundTable, roundTable')
    ensures StoresPlannedStructure(roundTable, roundTable', fixtureTable, fixtureTable', s, tid, t, teams)
  {
    var rounds: seq<Round>;
    match s {
      case RoundRobin =>
        var generated := RoundRobinRounds(tid, t, teams);
        rounds := generated.value;
      case SingleElimination =>
        var generated := SingleEliminationRounds(tid, t, teams);
        rounds := generated.value;
    }
    assert rounds == PlannedRounds(tid, t, RoundTypeOf(s), RoundCount(s, |teams|));
    roundTable', fixtureTable' := SaveStructure(roundTable, fixtureTable, s, tid, t, rounds, teams);
  }

  /** `generate_tournament_structure`. The tournament's `actual_start_date`
      becomes the first generated round's start, which is its scheduled
      start. */
  method GenerateTournamentStructure(db: CompetitionDb, tid: Id, now: Time) returns (r: Outcome<TournamentError>)
    modifies db`tournaments, db`rounds, db`fixtures
    ensures tid !in old(db.tournaments) ==> r == Fail(TournamentNotFound)
    ensures tid in old(db.tournaments) && old(db.tournaments[tid].state) != RegistrationClosed ==> r == Fail(NotRegistrationClosed)
    ensures tid in old(db.tournaments) && old(db.tournaments[tid].state) == RegistrationClosed ==>
      var t := old(db.tournaments[tid]);
      var teams := RegisteredTeams(old(db.registrations), tid);
      r == GenerationCheck(tid, t, teams, RosterCounts(old(db.rosterSize), teams), now)
    ensures r.Fail? ==> db.tournaments == old(db.tournaments) && db.rounds == old(db.rounds) && db.fixtures == old(db.fixtures)
    ensures r.Pass? ==>
      var t := old(db.tournaments[tid]);
      db.tournaments == old(db.tournaments)[tid := t.(state := NotStarted, actualStart := Some(t.scheduledStart))]
    ensures r.Pass? ==> Keeps(old(db.rounds), db.rounds) && Keeps(old(db.fixtures), db.fixtures)
    ensures r.Pass? ==>
      var t := old(db.tournaments[tid]);
      var s := GetGenerationStrategy(t.ttype).value;
      var count := RoundCount(s, |RegisteredTeams(old(db.registrations), tid)|);
      && AddsOnlyPlannedRounds(old(db.rounds), db.rounds, tid, t, RoundTypeOf(s), count)
      && AddsEveryPlannedRound(old(db.rounds), db.rounds, tid, t, RoundTypeOf(s), count)
    ensures r.Pass? ==> AddsGeneratedFixtures(old(db.fixtures), db.fixtures, tid, old(db.rounds), db.rounds)
    ensures r.Pass? ==>
      var t := old(db.tournaments[tid]);
      var s := GetGenerationStrategy(t.ttype).value;
      var teams := RegisteredTeams(old(db.registrations), tid);
      StoresPlannedStructure(old(db.rounds), db.rounds, old(db.fixtures), db.fixtures, s, tid, t, teams)
  {
    if tid !in db.tournaments {
      return Fail(TournamentNotFound);
    }
    var t := db.tournaments[tid];
    if t.state != RegistrationClosed {
      return Fail(NotRegistrationClosed);
    }
    var teams := RegisteredTeams(db.registrations, tid);
    r := GenerationCheck(tid, t, teams, RosterCounts(db.rosterSize, teams), now);
    if r.Fail? {
      return;
    }
    TeamCheckSubsumesCount(RosterCounts(db.rosterSize, teams), t);
    SaveGeneratedStructure(db, tid, t, GetGenerationStrategy(t.ttype).value, teams);
  }

  /** The writes of a generation that passed its checks: the rounds and
      fixtures of strategy `s` are added and the tournament moves to
      NOT_STARTED with its actual start at its first round's start. */
  method SaveGeneratedStructure(db: CompetitionDb, tid: Id, t: Tournament, s: Strategy, teams: seq<Id>)
    requires ValidateTeamCount(|teams|, t.minTeams, t.maxTeams).Pass?
    modifies db`tournaments, db`rounds, db`fixtures
    ensures db.tournaments == old(db.tournaments)[tid := t.(state := NotStarted, actualStart := Some(t.scheduledStart))]
    ensures Keeps(old(db.rounds), db.rounds) && Keeps(old(db.fixtures), db.fixtures)
    ensures AddsOnlyPlannedRounds(old(db.rounds), db.rounds, tid, t, RoundTypeOf(s), RoundCount(s, |teams|))
    ensures AddsEveryPlannedRound(old(db.rounds), db.rounds, tid, t, RoundTypeOf(s), RoundCount(s, |teams|))
    ensures AddsGeneratedFixtures(old(db.fixtures), db.fixtures, tid, old(db.rounds), db.rounds)
    ensures StoresPlannedStructure(old(db.rounds), db.rounds, old(db.fixtures), db.fixtures, s, tid, t, teams)
  {
    // rounds[0] is the planned round with index 0, which starts at the scheduled start
    var firstStart := PlannedRound(tid, t, RoundTypeOf(s), 0).startDate;
    assert firstStart == t.scheduledStart;
    db.tournaments := db.tournaments[tid := t.(state := NotStarted, actualStart := Some(firstStart))];
    db.rounds, db.fixtures := BuildStructure(db.rounds, db.fixtures, s, tid, t, teams);
  }

  // ---------------------------------------------------------------------
  // complete_tournament, cancel_tournament, start_tournament

  method CompleteTournament(db: CompetitionDb, tid: Id) returns (r: Outcome<TournamentError>)
    requires tid in db.tournaments
    modifies db`tournaments
    ensures r.Pass? <==> old(db.tournaments[tid].state) == TournamentState.InProgress
    ensures r.Fail? ==> r.error == NotInProgress && db.tournaments == old(db.tournaments)
    ensures r.Pass? ==> db.tournaments == old(db.tournaments)[tid := old(db.tournaments[tid]).(state := TournamentState.Completed)]
  {
    var t := db.tournaments[tid];
    if t.state != TournamentState.InProgress {
      return Fail(NotInProgress);
    }
    db.tournaments := db.tournaments[tid := t.(state := TournamentState.Completed)];
    return Pass;
  }

  method CancelTournament(db: CompetitionDb, tid: Id) returns (r: Outcome<TournamentError>)
    requires tid in db.tournaments
    modifies db`tournaments
    ensures r.Pass? <==> old(db.tournaments[tid].state) != TournamentState.Completed
    ensures r.Fail? ==> r.error == AlreadyCompleted && db.tournaments == old(db.tournaments)
    ensures r.Pass? ==> db.tournaments == old(db.tournaments)[tid := old(db.tournaments[tid]).(state := TournamentState.Cancelled)]
  {
    var t := db.tournaments[tid];
    if t.state == TournamentState.Completed {
      return Fail(AlreadyCompleted);
    }
    db.tournaments := db.tournaments[tid := t.(state := TournamentState.Cancelled)];
    return Pass;
  }

  /** `start_tournament`: a NOT_STARTED tournament with a round numbered 1
      goes IN_PROGRESS, started now, and that round becomes "active". */
  method StartTournament(db: CompetitionDb, tid: Id, now: Time) returns (r: Outcome<TournamentError>)
    modifies db`tournaments, db`rounds
    ensures r.Pass? <==>
      tid in old(db.tournaments) && old(db.tournaments[tid].state) == NotStarted && old(NumberedRound(db.rounds, tid, 1)).Some?
    ensures r.Fail? ==> db.tournaments == old(db.tournaments) && db.rounds == old(db.rounds)
    ensures r.Fail? && tid !in old(db.tournaments) ==> r.error == TournamentNotFound
    ensures r.Fail? && tid in old(db.tournaments) && old(db.tournaments[tid].state) != NotStarted ==> r.error == HasStarted
    ensures r.Pass? ==>
      db.tournaments == old(db.tournaments)[tid := old(db.tournaments[tid]).(state := TournamentState.InProgress, actualStart := Some(now))]
    ensures r.Pass? ==>
      var rid := old(NumberedRound(db.rounds, tid, 1)).value;
      db.rounds == old(db.rounds)[rid := old(db.rounds[rid]).(status := RoundStatus.Active)]
  {
    if tid !in db.tournaments {
      return Fail(TournamentNotFound);
    }
    var t := db.tournaments[tid];
    if t.state != NotStarted {
      return Fail(HasStarted);
    }
    var first := NumberedRound(db.rounds, tid, 1);
    if first.None? {
      return Fail(NoFirstRound);
    }
    db.tournaments := db.tournaments[tid := t.(state := TournamentState.InProgress, actualStart := Some(now))];
    db.rounds := db.rounds[first.value := db.rounds[first.value].(status := RoundStatus.Active)];
    return Pass;
  }

  // ---------------------------------------------------------------------
  // get_round_winners, complete_round

  /** `get_team_by_id(winner_id)`: the team, or None when there is no such
      team (a draw's winner_id is None and finds no team either). */
  function TeamOf(teams: set<Id>, winner: Option<Id>): (r: Option<Id>)
    ensures r.Some? <==> winner.Some? && winner.value in teams
    ensures r.Some? ==> r == winner
  {
    if winner.Some? && winner.value in teams then winner else None
  }

  /** The winner `get_round_winners` reads for one fixture: the forfeit winner
      of a forfeited fixture, otherwise the winner of its result.
      `resultWinner` maps a fixture with a result to that result's winner_id
      (None for a draw); a fixture missing from it has no result. */
  function FixtureWinner(fid: Id, f: Fixture, resultWinner: map<Id, Option<Id>>): (r: Result<Option<Id>, TournamentError>)
    ensures f.status == FixtureStatus.Forfeited ==>
      (r.Err? <==> f.forfeitWinner.None?) && (r.Ok? ==> r.value == f.forfeitWinner)
    ensures f.status != FixtureStatus.Forfeited ==>
      (r.Err? <==> fid !in resultWinner) && (r.Ok? ==> r.value == resultWinner[fid])
  {
    if f.status == FixtureStatus.Forfeited then
      if f.forfeitWinner.None? then Err(ForfeitWithoutWinner(fid)) else Ok(f.forfeitWinner)
    else if fid !in resultWinner then Err(NoResult(fid))
    else Ok(resultWinner[fid])
  }

  /** `prefix` followed by a successful list; an error stays an error. */
  function Extend(prefix: seq<Option<Id>>, r: Result<seq<Option<Id>>, TournamentError>): (e: Result<seq<Option<Id>>, TournamentError>)
    ensures e.Err? <==> r.Err?
    ensures r.Err? ==> e == r
    ensures r.Ok? ==> e.value == prefix + r.value
  {
    match r
    case Err(err) => Err(err)
    case Ok(rest) => Ok(prefix + rest)
  }

  lemma ExtendEmpty(r: Result<seq<Option<Id>>, TournamentError>)
    ensures Extend([], r) == r
  {
    if r.Ok? {
      assert [] + r.value == r.value;
    }
  }

  lemma ExtendTwice(a: seq<Option<Id>>, b: seq<Option<Id>>, r: Result<seq<Option<Id>>, TournamentError>)
    ensures Extend(a, Extend(b, r)) == Extend(a + b, r)
  {
    if r.Ok? {
      assert a + (b + r.value) == (a + b) + r.value;
    }
  }

  /** The winners of the fixtures `fids`, in order, or the first error. */
  function RoundWinners(fixtures: map<Id, Fixture>, teams: set<Id>, fids: seq<Id>, resultWinner: map<Id, Option<Id>>)
    : Result<seq<Option<Id>>, TournamentError>
    requires forall i :: 0 <= i < |fids| ==> fids[i] in fixtures
  {
    if fids == [] then Ok([])
    else match FixtureWinner(fids[0], fixtures[fids[0]], resultWinner)
      case Err(e) => Err(e)
      case Ok(w) => Extend([TeamOf(teams, w)], RoundWinners(fixtures, teams, fids[1..], resultWinner))
  }

  /** One winner per fixture, in fixture order, and an error exactly when
      some fixture has no readable winner. */
  lemma {:induction false} RoundWinnersMeaning(fixtures: map<Id, Fixture>, teams: set<Id>, fids: seq<Id>, resultWinner: map<Id, Option<Id>>)
    requires forall i :: 0 <= i < |fids| ==> fids[i] in fixtures
    ensures RoundWinners(fixtures, teams, fids, resultWinner).Err? <==>
      exists i :: 0 <= i < |fids| && FixtureWinner(fids[i], fixtures[fids[i]], resultWinner).Err?
    ensures RoundWinners(fixtures, teams, fids, resultWinner).Ok? ==>
      var w := RoundWinners(fixtures, teams, fids, resultWinner).value;
      && |w| == |fids|
      && forall i :: 0 <= i < |fids| ==>
           w[i] == TeamOf(teams, FixtureWinner(fids[i], fixtures[fids[i]], resultWinner).value)
  {
    if fids != [] {
      RoundWinnersMeaning(fixtures, teams, fids[1..], resultWinner);
      var r := RoundWinners(fixtures, teams, fids, resultWinner);
      if FixtureWinner(fids[0], fixtures[fids[0]], resultWinner).Ok? {
        if r.Err? {
          var i :| 0 <= i < |fids[1..]| && FixtureWinner(fids[1..][i], fixtures[fids[1..][i]], resultWinner).Err?;
          assert FixtureWinner(fids[i + 1], fixtures[fids[i + 1]], resultWinner).Err?;
        } else {
          forall i | 1 <= i < |fids|
            ensures FixtureWinner(fids[i], fixtures[fids[i]], resultWinner).Ok?
          {
            assert fids[i] == fids[1..][i - 1];
          }
        }
      }
    }
  }

  /** `get_round_winners`: the loop over the round's fixtures, appending
      each fixture's winning team (or None) and raising at the first fixture
      without a readable winner. */
  method GetRoundWinners(fixtures: map<Id, Fixture>, teams: set<Id>, rid: Id, resultWinner: map<Id, Option<Id>>)
    returns (r: Result<seq<Option<Id>>, TournamentError>)
    ensures r == RoundWinners(fixtures, teams, RoundFixtureList(fixtures, rid), resultWinner)
  {
    var fids := RoundFixtureList(fixtures, rid);
    var winners: seq<Option<Id>> := [];
    var i := 0;
    assert fids[0..] == fids;
    ExtendEmpty(RoundWinners(fixtures, teams, fids, resultWinner));
    while i < |fids|
      invariant 0 <= i <= |fids|
      invariant RoundWinners(fixtures, teams, fids, resultWinner) ==
        Extend(winners, RoundWinners(fixtures, teams, fids[i..], resultWinner))
    {
      assert fids[i..][1..] == fids[i + 1..];
      assert fids[i..][0] == fids[i];
      var w := FixtureWinner(fids[i], fixtures[fids[i]], resultWinner);
      if w.Err? {
        return Err(w.error);
      }
      var winner := TeamOf(teams, w.value);
      ExtendTwice(winners, [winner], RoundWinners(fixtures, teams, fids[i + 1..], resultWinner));
      winners := winners + [winner];
      i := i + 1;
    }
    assert fids[i..] == [];
    assert winners + [] == winners;
    return Ok(winners);
  }

  /** The team ids of a winners list in which every winner is a team. */
  function WinnerIds(winners: seq<Option<Id>>): (ids: seq<Id>)
    requires forall i :: 0 <= i < |winners| ==> winners[i].Some?
    ensures |ids| == |winners|
    ensures forall i :: 0 <= i < |ids| ==> winners[i] == Some(ids[i])
  {
    seq(|winners|, i requires 0 <= i < |winners| => winners[i].value)
  }

  /** The knockout half of `complete_round`: the winners of round `rid` are
      read and, when the next round is round 1, its fixtures are generated
      from them and added to `fixtures`. */
  method AdvanceWinners(fixtures: map<Id, Fixture>, teams: set<Id>, tid: Id, t: Tournament, rid: Id,
                        nextId: Id, next: Round, resultWinner: map<Id, Option<Id>>)
    returns (r: Result<map<Id, Fixture>, TournamentError>)
    ensures var w := RoundWinners(fixtures, teams, RoundFixtureList(fixtures, rid), resultWinner);
      r.Err? <==> w.Err? || (next.roundNumber == 1 && (exists i :: 0 <= i < |w.value| && w.value[i].None?))
    ensures r.Ok? && next.roundNumber != 1 ==> r.value == fixtures
    ensures r.Ok? ==> forall fid :: fid in fixtures ==> fid in r.value && r.value[fid] == fixtures[fid]
    ensures r.Ok? ==> forall fid :: fid in r.value && fid !in fixtures ==>
      GeneratedFor(r.value[fid], tid) && r.value[fid].roundId == nextId
  {
    var winners := GetRoundWinners(fixtures, teams, rid, resultWinner);
    if winners.Err? {
      return Err(winners.error);
    }
    if next.roundNumber != 1 {
      return Ok(fixtures);
    }
    // `generate_fixtures` reads `team.id` of every winner
    if exists i :: 0 <= i < |winners.value| && winners.value[i].None? {
      return Err(WinnerNotATeam);
    }
    var generated := StrategyFixtures(SingleElimination, tid, t, nextId, next.(status := RoundStatus.Active), WinnerIds(winners.value));
    var table, fids := AddRows(fixtures, generated);
    forall fid | fid in table && fid !in fixtures
      ensures GeneratedFor(table[fid], tid) && table[fid].roundId == nextId
    {
      var k :| 0 <= k < |fids| && fids[k] == fid;
      assert table[fid] == generated[k];
    }
    return Ok(table);
  }

  /** `complete_round`. For a knockout tournament the winners of the round
      are read (which can fail) and the next round's fixtures are generated
      from them; the single-elimination strategy generates nothing for any
      round but round 1, so only the next round being round 1 adds fixtures.
      Unlike the other lifecycle operations it carries no audit wrapper. */
  method CompleteRound(db: CompetitionDb, tid: Id, roundNumber: int, now: Time, resultWinner: map<Id, Option<Id>>)
    returns (r: Outcome<TournamentError>)
    modifies db`tournaments, db`rounds, db`fixtures
    ensures tid !in old(db.tournaments) ==> r == Fail(TournamentNotFound)
    ensures tid in old(db.tournaments) && old(NumberedRound(db.rounds, tid, roundNumber)).None? ==> r == Fail(RoundNotFound)
    ensures (tid in old(db.tournaments) && old(NumberedRound(db.rounds, tid, roundNumber)).Some? &&
             !AllFinished(old(db.fixtures), old(NumberedRound(db.rounds, tid, roundNumber)).value)) ==> r == Fail(FixturesUnfinished)
    ensures r.Fail? ==> db.tournaments == old(db.tournaments) && db.rounds == old(db.rounds) && db.fixtures == old(db.fixtures)
    ensures r.Pass? ==> tid in old(db.tournaments) && old(NumberedRound(db.rounds, tid, roundNumber)).Some?
    ensures r.Pass? ==> AllFinished(old(db.fixtures), old(NumberedRound(db.rounds, tid, roundNumber)).value)
    // no next round: the round is completed and so is the tournament
    ensures r.Pass? && old(NumberedRound(db.rounds, tid, roundNumber + 1)).None? ==>
      var rid := old(NumberedRound(db.rounds, tid, roundNumber)).value;
      && db.rounds == old(db.rounds)[rid := old(db.rounds[rid]).(status := RoundStatus.Completed)]
      && db.tournaments == old(db.tournaments)[tid := old(db.tournaments[tid]).(state := TournamentState.Completed, actualEnd := Some(now))]
      && db.fixtures == old(db.fixtures)
    // a next round: the round is completed and the next one is active
    ensures r.Pass? && old(NumberedRound(db.rounds, tid, roundNumber + 1)).Some? ==>
      var rid := old(NumberedRound(db.rounds, tid, roundNumber)).value;
      var next := old(NumberedRound(db.rounds, tid, roundNumber + 1)).value;
      && db.rounds == old(db.rounds)[rid := old(db.rounds[rid]).(status := RoundStatus.Completed)]
                                    [next := old(db.rounds[next]).(status := RoundStatus.Active)]
      && db.tournaments == old(db.tournaments)
    ensures (r.Pass? && old(NumberedRound(db.rounds, tid, roundNumber + 1)).Some? &&
             (old(db.tournaments[tid].ttype) != Knockout || roundNumber + 1 != 1)) ==> db.fixtures == old(db.fixtures)
    // a knockout round whose winners cannot all be read fails
    ensures tid in old(db.tournaments) && old(db.tournaments[tid].ttype) == Knockout &&
            old(NumberedRound(db.rounds, tid, roundNumber)).Some? && old(NumberedRound(db.rounds, tid, roundNumber + 1)).Some? &&
            AllFinished(old(db.fixtures), old(NumberedRound(db.rounds, tid, roundNumber)).value) ==>
      var rid := old(NumberedRound(db.rounds, tid, roundNumber)).value;
      var w := RoundWinners(old(db.fixtures), db.teams, old(RoundFixtureList(db.fixtures, rid)), resultWinner);
      r.Fail? <==> w.Err? || (roundNumber + 1 == 1 && (exists i :: 0 <= i < |w.value| && w.value[i].None?))
    ensures r.Pass? ==> forall fid :: fid in old(db.fixtures) ==> fid in db.fixtures && db.fixtures[fid] == old(db.fixtures[fid])
    ensures r.Pass? ==> forall fid :: fid in db.fixtures && fid !in old(db.fixtures) ==>
      GeneratedFor(db.fixtures[fid], tid) && Some(db.fixtures[fid].roundId) == old(NumberedRound(db.rounds, tid, roundNumber + 1))
  {
    if tid !in db.tournaments {
      return Fail(TournamentNotFound);
    }
    var t := db.tournaments[tid];
    var current := NumberedRound(db.rounds, tid, roundNumber);
    if current.None? {
      return Fail(RoundNotFound);
    }
    var rid := current.value;
    if !AllFinished(db.fixtures, rid) {
      return Fail(FixturesUnfinished);
    }
    var next := NumberedRound(db.rounds, tid, roundNumber + 1);
    if next.None? {
      db.rounds := db.rounds[rid := db.rounds[rid].(status := RoundStatus.Completed)];
      db.tournaments := db.tournaments[tid := t.(state := TournamentState.Completed, actualEnd := Some(now))];
      return Pass;
    }
    var nextId := next.value;
    if t.ttype == Knockout {
      var added := AdvanceWinners(db.fixtures, db.teams, tid, t, rid, nextId, db.rounds[nextId], resultWinner);
      if added.Err? {
        return Fail(added.error);
      }
      db.fixtures := added.value;
    }
    db.rounds := db.rounds[rid := db.rounds[rid].(status := RoundStatus.Completed)];
    db.rounds := db.rounds[nextId := db.rounds[nextId].(status := RoundStatus.Active)];
    return Pass;
  }

  // ---------------------------------------------------------------------
  // Registrations

  /** A PENDING or APPROVED registration: one that holds the team's place. */
  predicate Holds(reg: Registration)
  {
    reg.status == RegistrationStatus.Pending || reg.status == Approved
  }

  /** Ids of the APPROVED registrations of tournament `tid`. */
  function ApprovedIds(regs: map<Id, Registration>, tid: Id): set<Id>
  {
    set rid | rid in regs && regs[rid].tournamentId == tid && regs[rid].status == Approved
  }

  /** `get_registrations`' answer. */
  datatype RegistrationList = RegistrationList(totalRegistered: nat, totalPending: nat, registrations: set<Id>)

  /** `get_registrations`: the registrations of `tid`, restricted to one
      status when one is given, and how many of those are APPROVED and how
      many PENDING. */
  function GetRegistrations(regs: map<Id, Registration>, tid: Id, status: Option<RegistrationStatus>): (r: RegistrationList)
    ensures forall rid :: rid in r.registrations <==>
      rid in regs && regs[rid].tournamentId == tid && (status.Some? ==> regs[rid].status == status.value)
  {
    var selected := set rid | rid in regs && regs[rid].tournamentId == tid && (status.Some? ==> regs[rid].status == status.value);
    RegistrationList(
      |set rid | rid in selected && regs[rid].status == Approved|,
      |set rid | rid in selected && regs[rid].status == RegistrationStatus.Pending|,
      selected)
  }

  /** The two totals count disjoint parts of the list; a status filter zeroes
      the total of the other status; unfiltered, the registered total is the
      count the capacity check uses. */
  lemma RegistrationTotals(regs: map<Id, Registration>, tid: Id, status: Option<RegistrationStatus>)
    ensures var r := GetRegistrations(regs, tid, status);
      r.totalRegistered + r.totalPending <= |r.registrations|
    ensures status.Some? && status.value != Approved ==> GetRegistrations(regs, tid, status).totalRegistered == 0
    ensures status.Some? && status.value != RegistrationStatus.Pending ==> GetRegistrations(regs, tid, status).totalPending == 0
    ensures status == Some(RegistrationStatus.Pending) ==>
      GetRegistrations(regs, tid, status).totalPending == |GetRegistrations(regs, tid, status).registrations|
    ensures status.None? ==> GetRegistrations(regs, tid, status).totalRegistered == |ApprovedIds(regs, tid)|
  {
    RegistrationTotalsBound(regs, tid, status);
    RegistrationTotalsFiltered(regs, tid, status);
  }

  /** The approved and the pending registrations listed are at most all
      those listed. */
  lemma RegistrationTotalsBound(regs: map<Id, Registration>, tid: Id, status: Option<RegistrationStatus>)
    ensures var r := GetRegistrations(regs, tid, status);
      r.totalRegistered + r.totalPending <= |r.registrations|
  {
    var r := GetRegistrations(regs, tid, status);
    var a := set rid | rid in r.registrations && regs[rid].status == Approved;
    var p := set rid | rid in r.registrations && regs[rid].status == RegistrationStatus.Pending;
    assert a * p == {};
    SubsetCard(a + p, r.registrations);
  }

  /** The totals under a status filter. */
  lemma RegistrationTotalsFiltered(regs: map<Id, Registration>, tid: Id, status: Option<RegistrationStatus>)
    ensures status.Some? && status.value != Approved ==> GetRegistrations(regs, tid, status).totalRegistered == 0
    ensures status.Some? && status.value != RegistrationStatus.Pending ==> GetRegistrations(regs, tid, status).totalPending == 0
    ensures status == Some(RegistrationStatus.Pending) ==>
      GetRegistrations(regs, tid, status).totalPending == |GetRegistrations(regs, tid, status).registrations|
    ensures status.None? ==> GetRegistrations(regs, tid, status).totalRegistered == |ApprovedIds(regs, tid)|
  {
    var r := GetRegistrations(regs, tid, status);
    var a := set rid | rid in r.registrations && regs[rid].status == Approved;
    var p := set rid | rid in r.registrations && regs[rid].status == RegistrationStatus.Pending;
    if status.Some? && status.value != Approved {
      assert a == {};
    }
    if status.Some? && status.value != RegistrationStatus.Pending {
      assert p == {};
    }
    if status == Some(RegistrationStatus.Pending) {
      assert p == r.registrations;
    }
    if status.None? {
      assert a == ApprovedIds(regs, tid);
    }
  }

  /** The registration window: REGISTRATION_OPEN, or REGISTRATION_CLOSED with
      late registration allowed and `now` not past the late deadline. */
  predicate RegistrationWindowOpen(t: Tournament, now: Time)
  {
    t.state == RegistrationOpen
    || (t.state == RegistrationClosed && t.allowLateRegistration
        && t.lateRegistrationEnd.Some? && now <= t.lateRegistrationEnd.value)
  }

  /** The team already holds a place in tournament `tid`. */
  predicate AlreadyHolds(regs: map<Id, Registration>, tid: Id, team: Id)
  {
    exists rid :: rid in regs && regs[rid].tournamentId == tid && regs[rid].teamId == team && Holds(regs[rid])
  }

  /** `_validate_registration_request`, at time `now`. Comparing `now` with a
      missing late deadline raises TypeError. */
  function ValidateRegistrationRequest(
    t: Tournament, tid: Id, team: Id, actor: Id,
    regs: map<Id, Registration>, captains: set<(Id, Id)>, rosterSize: map<Id, nat>, now: Time)
    : (r: Outcome<RegistrationError>)
    ensures r.Pass? <==>
      && RegistrationWindowOpen(t, now)
      && !AlreadyHolds(regs, tid, team)
      && (team, actor) in captains
      && RosterOf(rosterSize, team) >= t.minTeamSize
      && |ApprovedIds(regs, tid)| < t.maxTeams
    ensures r == Fail(RegistrationNotOpen) || r == Fail(LateEndMissing) <==> !RegistrationWindowOpen(t, now)
    ensures RegistrationWindowOpen(t, now) ==>
      (r == Fail(AlreadyRegistered) <==> AlreadyHolds(regs, tid, team))
    ensures RegistrationWindowOpen(t, now) && !AlreadyHolds(regs, tid, team) ==>
      (r == Fail(NotCaptain) <==> (team, actor) !in captains)
  {
    if t.state != RegistrationOpen && !(t.state == RegistrationClosed && t.allowLateRegistration) then Fail(RegistrationNotOpen)
    else if t.state != RegistrationOpen && t.lateRegistrationEnd.None? then Fail(LateEndMissing)
    else if t.state != RegistrationOpen && now > t.lateRegistrationEnd.value then Fail(RegistrationNotOpen)
    else if AlreadyHolds(regs, tid, team) then Fail(AlreadyRegistered)
    else if (team, actor) !in captains then Fail(NotCaptain)
    else if RosterOf(rosterSize, team) < t.minTeamSize then Fail(ShortRoster)
    else if |ApprovedIds(regs, tid)| >= t.maxTeams then Fail(TournamentFull)
    else Pass
  }

  /** No team holds two places in one tournament. */
  predicate OnePlacePerTeam(regs: map<Id, Registration>)
  {
    forall a, b ::
      (a in regs && b in regs && Holds(regs[a]) && Holds(regs[b])
       && regs[a].tournamentId == regs[b].tournamentId && regs[a].teamId == regs[b].teamId) ==> a == b
  }

  /** The PENDING registration `request_registration` creates. */
  function NewRegistration(tid: Id, team: Id, actor: Id, now: Time, notes: Option<string>): Registration
  {
    Registration(tid, team, RegistrationStatus.Pending, actor, now, notes, None, None, None, None, None, None)
  }

  /** An accepted request keeps every team to at most one place. */
  lemma RequestKeepsOnePlace(
    t: Tournament, tid: Id, team: Id, actor: Id,
    regs: map<Id, Registration>, captains: set<(Id, Id)>, rosterSize: map<Id, nat>, now: Time,
    id: Id, notes: Option<string>)
    requires OnePlacePerTeam(regs) && id !in regs
    requires ValidateRegistrationRequest(t, tid, team, actor, regs, captains, rosterSize, now).Pass?
    ensures OnePlacePerTeam(regs[id := NewRegistration(tid, team, actor, now, notes)])
  {
    var regs' := regs[id := NewRegistration(tid, team, actor, now, notes)];
    forall a, b | a in regs' && b in regs' && Holds(regs'[a]) && Holds(regs'[b])
      && regs'[a].tournamentId == regs'[b].tournamentId && regs'[a].teamId == regs'[b].teamId
      ensures a == b
    {

    }
  }

  /** `request_registration`. */
  method RequestRegistration(db: CompetitionDb, tid: Id, team: Id, actor: Id, notes: Option<string>, now: Time)
    returns (r: Result<Id, RegistrationError>)
    modifies db`registrations
    ensures tid !in db.tournaments ==> r == Err(TournamentMissing)
    ensures tid in db.tournaments && team !in db.teams ==> r == Err(TeamNotFound)
    ensures tid in db.tournaments && team in db.teams ==>
      var check := ValidateRegistrationRequest(db.tournaments[tid], tid, team, actor, old(db.registrations), db.captains, db.rosterSize, now);
      (r.Err? <==> check.Fail?) && (r.Err? ==> r.error == check.error)
    ensures r.Err? ==> db.registrations == old(db.registrations)
    ensures r.Ok? ==> r.value !in old(db.registrations)
    ensures r.Ok? ==> db.registrations == old(db.registrations)[r.value := NewRegistration(tid, team, actor, now, notes)]
    ensures OnePlacePerTeam(old(db.registrations)) ==> OnePlacePerTeam(db.registrations)
  {
    if tid !in db.tournaments {
      return Err(TournamentMissing);
    }
    if team !in db.teams {
      return Err(TeamNotFound);
    }
    var check := ValidateRegistrationRequest(db.tournaments[tid], tid, team, actor, db.registrations, db.captains, db.rosterSize, now);
    if check.Fail? {
      return Err(check.error);
    }
    var id := FreshId(db.registrations.Keys);
    if OnePlacePerTeam(db.registrations) {
      RequestKeepsOnePlace(db.tournaments[tid], tid, team, actor, db.registrations, db.captains, db.rosterSize, now, id, notes);
    }
    db.registrations := db.registrations[id := NewRegistration(tid, team, actor, now, notes)];
    return Ok(id);
  }

  /** A `RegistrationReviewRequest`. */
  datatype Review = Review(status: RegistrationStatus, reviewNotes: Option<string>)

  /** `get_registration`: the registration `rid` when it belongs to `tid`. */
  function FindRegistration(regs: map<Id, Registration>, tid: Id, rid: Id): (r: Option<Registration>)
    ensures r.Some? <==> rid in regs && regs[rid].tournamentId == tid
    ensures r.Some? ==> r.value == regs[rid]
  {
    if rid in regs && regs[rid].tournamentId == tid then Some(regs[rid]) else None
  }

  /** `review_registration` as written: once the registration is found and
      PENDING, it reads `review.notes`, a field the review request does not
      have, and raises AttributeError; no review ever succeeds. */
  function ReviewAsWritten(reg: Option<Registration>, review: Review, actor: Id, now: Time): (r: Result<Registration, RegistrationError>)
    ensures r.Err?
    ensures r.error == (if reg.None? then RegistrationNotFound
                        else if reg.value.status != RegistrationStatus.Pending then NotPending
                        else ReviewNotesMissing)
  {
    if reg.None? then Err(RegistrationNotFound)
    else if reg.value.status != RegistrationStatus.Pending then Err(NotPending)
    else Err(ReviewNotesMissing)
  }

  /** `review_registration` as intended: a PENDING registration takes the
      review's status and notes and records who reviewed it and when. */
  function ReviewRegistrationRecord(reg: Option<Registration>, review: Review, actor: Id, now: Time): (r: Result<Registration, RegistrationError>)
    ensures r.Ok? <==> reg.Some? && reg.value.status == RegistrationStatus.Pending
    ensures reg.None? ==> r == Err(RegistrationNotFound)
    ensures r.Ok? ==> r.value.status == review.status && r.value.reviewNotes == review.reviewNotes
    ensures r.Ok? ==> r.value.reviewedBy == Some(actor) && r.value.reviewedAt == Some(now)
    ensures r.Ok? ==> r.value == reg.value.(status := r.value.status, reviewedBy := r.value.reviewedBy,
                                             reviewedAt := r.value.reviewedAt, reviewNotes := r.value.reviewNotes)
  {
    if reg.None? then Err(RegistrationNotFound)
    else if reg.value.status != RegistrationStatus.Pending then Err(NotPending)
    else Ok(reg.value.(status := review.status, reviewedBy := Some(actor), reviewedAt := Some(now), reviewNotes := review.reviewNotes))
  }

  /** The review of any PENDING registration shows the difference. */
  lemma ReviewAsWrittenNeverSucceeds(reg: Registration, review: Review, actor: Id, now: Time)
    requires reg.status == RegistrationStatus.Pending
    ensures ReviewAsWritten(Some(reg), review, actor, now) == Err(ReviewNotesMissing)
    ensures ReviewRegistrationRecord(Some(reg), review, actor, now).Ok?
  {
  }

  /** A review changes one PENDING registration, so it never gives a team a
      second place. */
  lemma {:induction false} ReviewKeepsOnePlace(regs: map<Id, Registration>, rid: Id, reg: Registration)
    requires OnePlacePerTeam(regs) && rid in regs && Holds(regs[rid])
    requires reg.tournamentId == regs[rid].tournamentId && reg.teamId == regs[rid].teamId
    ensures OnePlacePerTeam(regs[rid := reg])
  {
    var regs' := regs[rid := reg];
    forall a, b | a in regs' && b in regs' && Holds(regs'[a]) && Holds(regs'[b])
      && regs'[a].tournamentId == regs'[b].tournamentId && regs'[a].teamId == regs'[b].teamId
      ensures a == b
    {

    }
  }

  /** `review_registration`, with the review's notes read from its
      `review_notes` field. */
  method ReviewRegistration(db: CompetitionDb, tid: Id, rid: Id, review: Review, actor: Id, now: Time)
    returns (r: Result<Registration, RegistrationError>)
    modifies db`registrations
    ensures r == ReviewRegistrationRecord(FindRegistration(old(db.registrations), tid, rid), review, actor, now)
    ensures r.Ok? ==> db.registrations == old(db.registrations)[rid := r.value]
    ensures r.Err? ==> db.registrations == old(db.registrations)
    ensures OnePlacePerTeam(old(db.registrations)) ==> OnePlacePerTeam(db.registrations)
  {
    r := ReviewRegistrationRecord(FindRegistration(db.registrations, tid, rid), review, actor, now);
    if r.Ok? {
      if OnePlacePerTeam(db.registrations) {
        ReviewKeepsOnePlace(db.registrations, rid, r.value);
      }
      db.registrations := db.registrations[rid := r.value];
    }
  }

  /** The states in which `withdraw_registration` accepts a withdrawal. */
  predicate WithdrawalState(s: TournamentState)
  {
    s == RegistrationOpen || s == RegistrationClosed || s == TournamentState.InProgress
  }

  /** `withdraw_registration`: the registration must exist, the actor must
      captain its team, and the tournament must be in a withdrawal state
      (a missing tournament fails on reading its state). The registration
      becomes WITHDRAWN with who, when and why. */
  method WithdrawRegistration(db: CompetitionDb, tid: Id, rid: Id, reason: string, actor: Id, now: Time)
    returns (r: Result<Registration, RegistrationError>)
    modifies db`registrations
    ensures FindRegistration(old(db.registrations), tid, rid).None? ==> r == Err(RegistrationNotFound)
    ensures r.Ok? <==>
      && FindRegistration(old(db.registrations), tid, rid).Some?
      && db.IsCaptain(old(db.registrations[rid]).teamId, actor)
      && tid in db.tournaments && WithdrawalState(db.tournaments[tid].state)
    ensures (r.Err? && FindRegistration(old(db.registrations), tid, rid).Some? &&
             !db.IsCaptain(old(db.registrations[rid]).teamId, actor)) ==> r.error == NotCaptain
    ensures r.Ok? ==> r.value == old(db.registrations[rid]).(status := Withdrawn, withdrawnBy := Some(actor),
                                                            withdrawnAt := Some(now), withdrawalReason := Some(reason))
    ensures r.Ok? ==> db.registrations == old(db.registrations)[rid := r.value]
    ensures r.Err? ==> db.registrations == old(db.registrations)
    ensures OnePlacePerTeam(old(db.registrations)) ==> OnePlacePerTeam(db.registrations)
  {
    var reg := FindRegistration(db.registrations, tid, rid);
    if reg.None? {
      return Err(RegistrationNotFound);
    }
    if !db.IsCaptain(reg.value.teamId, actor) {
      return Err(NotCaptain);
    }
    if tid !in db.tournaments {
      return Err(TournamentMissing);
    }
    if !WithdrawalState(db.tournaments[tid].state) {
      return Err(WithdrawalNotAllowed);
    }
    var withdrawn := reg.value.(status := Withdrawn, withdrawnBy := Some(actor), withdrawnAt := Some(now), withdrawalReason := Some(reason));
    assert OnePlacePerTeam(db.registrations) ==> OnePlacePerTeam(db.registrations[rid := withdrawn]);
    db.registrations := db.registrations[rid := withdrawn];
    return Ok(withdrawn);
  }
}
