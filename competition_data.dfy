/** The tables of the competition engine: tournaments, their rounds, the
    fixtures of each round, per-map results, tournament registrations and
    the team facts the engine consults (which teams exist, who is recorded as
    a team's captain, and each team's active roster size).

    Tournament states are the superset the tournament service relies on: the
    enum declares NOT_STARTED, IN_PROGRESS, COMPLETED and CANCELLED, and the
    service also reads and writes REGISTRATION_OPEN and REGISTRATION_CLOSED.
    Round statuses are the strings "pending", "active" and "completed". */
module CompetitionData {
  import opened Common
  import opened MatchModels

  datatype TournamentType = Regular | Knockout | Pug

  datatype TournamentState =
    | RegistrationOpen | RegistrationClosed | NotStarted | InProgress | Completed | Cancelled

  /** A value found in a tournament's `format_config` dictionary. */
  datatype ConfigValue = IntValue(n: int) | StrValue(s: string) | OtherValue

  datatype Tournament = Tournament(
    name: string,
    ttype: TournamentType,
    state: TournamentState,
    formatConfig: map<string, ConfigValue>,
    minTeams: int,
    maxTeams: int,
    minTeamSize: int,
    maxTeamSize: int,
    scheduledStart: Time,
    scheduledEnd: Time,
    registrationEnd: Time,
    allowLateRegistration: bool,
    lateRegistrationEnd: Option<Time>,
    actualStart: Option<Time>,
    actualEnd: Option<Time>)

  datatype RoundType = GroupStage | KnockoutStage

  datatype RoundStatus = Pending | Active | Completed

  datatype Round = Round(
    tournamentId: Id,
    roundNumber: int,
    rtype: RoundType,
    bestOf: Option<int>,
    startDate: Time,
    endDate: Time,
    status: RoundStatus,
    adminNotes: Option<string>)

  datatype FixtureStatus = Scheduled | InProgress | Completed | Cancelled | Forfeited

  /** A fixture; `team2` is None only for a generated bye fixture. */
  datatype Fixture = Fixture(
    tournamentId: Id,
    roundId: Id,
    team1: Id,
    team2: Option<Id>,
    matchFormat: string,
    scheduledAt: Time,
    rescheduledFrom: Option<Time>,
    rescheduledBy: Option<Id>,
    rescheduleReason: Option<string>,
    status: FixtureStatus,
    forfeitWinner: Option<Id>,
    forfeitReason: Option<string>,
    adminNotes: Option<string>)

  datatype RegistrationStatus = Pending | Approved | Rejected | Withdrawn | Disqualified

  datatype Registration = Registration(
    tournamentId: Id,
    teamId: Id,
    status: RegistrationStatus,
    requestedBy: Id,
    requestedAt: Time,
    notes: Option<string>,
    reviewedBy: Option<Id>,
    reviewedAt: Option<Time>,
    reviewNotes: Option<string>,
    withdrawnBy: Option<Id>,
    withdrawnAt: Option<Time>,
    withdrawalReason: Option<string>)

  datatype MatchPlayer = MatchPlayer(fixtureId: Id, playerId: Id, teamId: Id, isSubstitute: bool)

  /** The fixture's sides as a list, `[fixture.team_1, fixture.team_2]`. */
  predicate IsSide(f: Fixture, team: Id)
  {
    team == f.team1 || f.team2 == Some(team)
  }

  /** A fixture status that counts as played for round completion in the
      tournament and fixture services. */
  predicate Finished(s: FixtureStatus)
  {
    s == FixtureStatus.Completed || s == FixtureStatus.Forfeited
  }

  /** Every fixture of round `rid` is COMPLETED or FORFEITED. */
  predicate AllFinished(fixtures: map<Id, Fixture>, rid: Id)
  {
    forall fid :: fid in fixtures && fixtures[fid].roundId == rid ==> Finished(fixtures[fid].status)
  }

  /** `get_round_by_number` (and `_get_next_round` with `n` one above the
      round's own number): the first round of `tid` numbered `n`. */
  function NumberedRound(rounds: map<Id, Round>, tid: Id, n: int): (r: Option<Id>)
    ensures r.Some? ==> r.value in rounds && rounds[r.value].tournamentId == tid && rounds[r.value].roundNumber == n
    ensures r.None? <==> forall rid :: rid in rounds ==> !(rounds[rid].tournamentId == tid && rounds[rid].roundNumber == n)
  {
    var s := RoundsNumbered(rounds, tid, n);
    assert forall rid :: rid in rounds && rounds[rid].tournamentId == tid && rounds[rid].roundNumber == n ==> rid in s;
    First(s)
  }

  /** The ids of the rounds of `tid` numbered `n`. */
  function RoundsNumbered(rounds: map<Id, Round>, tid: Id, n: int): set<Id>
  {
    set rid | rid in rounds && rounds[rid].tournamentId == tid && rounds[rid].roundNumber == n
  }

  /** `get_round_fixtures`: the fixtures of round `rid`, in the order the
      model lists rows. */
  function RoundFixtureList(fixtures: map<Id, Fixture>, rid: Id): (fids: seq<Id>)
    ensures forall i :: 0 <= i < |fids| ==> fids[i] in fixtures && fixtures[fids[i]].roundId == rid
    ensures forall fid :: fid in fixtures && fixtures[fid].roundId == rid ==> fid in fids
  {
    var fids := Ordered(FixturesOf(fixtures, rid));
    assert forall i :: 0 <= i < |fids| ==> fids[i] in FixturesOf(fixtures, rid);
    fids
  }

  /** Ids of the fixtures of round `rid`. */
  function FixturesOf(fixtures: map<Id, Fixture>, rid: Id): set<Id>
  {
    set fid | fid in fixtures && fixtures[fid].roundId == rid
  }

  class CompetitionDb {
    var tournaments: map<Id, Tournament>
    var rounds: map<Id, Round>
    var fixtures: map<Id, Fixture>
    var results: map<Id, MapResult>
    var registrations: map<Id, Registration>
    var matchPlayers: map<Id, MatchPlayer>
    /** Ids of the rows of the `teams` table. */
    var teams: set<Id>
    /** `TeamCaptain` rows as (team, player) pairs, whatever their status. */
    var captains: set<(Id, Id)>
    /** Active roster size of each team. */
    var rosterSize: map<Id, nat>

    constructor ()
      ensures tournaments == map[] && rounds == map[] && fixtures == map[]
      ensures results == map[] && registrations == map[] && matchPlayers == map[]
      ensures teams == {} && captains == {} && rosterSize == map[]
    {
      tournaments, rounds, fixtures := map[], map[], map[];
      results, registrations, matchPlayers := map[], map[], map[];
      teams, captains, rosterSize := {}, {}, map[];
    }

    /** Ids of the rounds of tournament `tid`. */
    function TournamentRounds(tid: Id): set<Id>
      reads this
    {
      set rid | rid in rounds && rounds[rid].tournamentId == tid
    }

    /** Ids of the per-map results of fixture `fid`. */
    function FixtureResults(fid: Id): set<Id>
      reads this
    {
      set id | id in results && results[id].fixtureId == fid
    }

    /** `_validate_team_captain` / `player_is_team_captain`: a `TeamCaptain` row
        exists for the pair, whatever its status. */
    predicate IsCaptain(team: Id, player: Id)
      reads this
    {
      (team, player) in captains
    }
  }
}
