/** The fixture service of the competition engine: creating a fixture in an
    active round, updating and rescheduling it inside its round's window,
    forfeiting and completing it, and the round completion those two attempt
    once every fixture of the round is finished.

    Every operation runs as one audited transaction: when it raises, nothing
    it changed is kept, so a failing operation leaves the tables unchanged.
    The `created_at` / `updated_at` timestamps are not part of the model. */
module FixtureService {
  import opened Common
  import opened CompetitionData
  import RoundService

  datatype FixtureError =
    | TournamentNotFound
    /** "Cannot create fixtures for completed tournaments" */
    | TournamentClosed
    /** "Invalid round for tournament" */
    | InvalidRound
    | RoundNotActive
    | TeamNotFound
    /** "Fixture must be scheduled within round dates" */
    | OutsideRoundDates
    /** "Cannot update (reschedule) completed or cancelled fixtures" */
    | Locked
    | RoundNotFound
    | AlreadyCompleted
    | WinnerNotASide
    | NotInProgress
    | FixtureNotFound
    /** An explicit null for the scheduled time or the status, which the
        fixture table does not store. */
    | NullField
    | NotScheduled
    | TeamNotASide
    /** An exception raised by the round service's `complete_round`. */
    | RoundNotCompleted(cause: RoundService.RoundError)

  /** The body of a create request. */
  datatype FixtureCreate = FixtureCreate(
    tournamentId: Id, roundId: Id, team1: Id, team2: Id, matchFormat: string, scheduledAt: Time)

  /** The body of an update request. The outer `None` is a field left
      unset; `Some(None)` is a field set to an explicit null. */
  datatype FixtureUpdate = FixtureUpdate(
    scheduledAt: Option<Option<Time>>, status: Option<Option<FixtureStatus>>, adminNotes: Option<Option<string>>)

  /** The body of a reschedule request. */
  datatype FixtureReschedule = FixtureReschedule(scheduledAt: Time, rescheduledBy: Id, reason: string)

  /** What the request schema guarantees before the service runs: two
      different teams and a match format of bo1, bo3 or bo5. */
  predicate WellFormed(data: FixtureCreate)
  {
    data.team1 != data.team2 && data.matchFormat in {"bo1", "bo3", "bo5"}
  }

  /** A fixture time inside the round's dates, both ends included. */
  predicate InWindow(round: Round, t: Time)
  {
    round.startDate <= t <= round.endDate
  }

  /** The two sides of every fixture differ (a bye has no second side). */
  predicate SidesDiffer(fixtures: map<Id, Fixture>)
  {
    forall fid :: fid in fixtures ==> fixtures[fid].team2 != Some(fixtures[fid].team1)
  }

  /** No COMPLETED fixture of `before` has changed or disappeared in `after`. */
  predicate KeepsCompleted(before: map<Id, Fixture>, after: map<Id, Fixture>)
  {
    forall fid :: fid in before && before[fid].status == FixtureStatus.Completed ==>
      fid in after && after[fid] == before[fid]
  }

  // ---------------------------------------------------------------------
  // create_fixture

  /** The guards of `create_fixture`, in the order the service checks them. */
  function CreateCheck(tournaments: map<Id, Tournament>, rounds: map<Id, Round>, teams: set<Id>, data: FixtureCreate)
    : (r: Outcome<FixtureError>)
    ensures r.Pass? <==>
      && data.tournamentId in tournaments
      && tournaments[data.tournamentId].state in {TournamentState.NotStarted, TournamentState.InProgress}
      && data.roundId in rounds && rounds[data.roundId].tournamentId == data.tournamentId
      && rounds[data.roundId].status == RoundStatus.Active
      && data.team1 in teams && data.team2 in teams
      && InWindow(rounds[data.roundId], data.scheduledAt)
    ensures data.tournamentId !in tournaments ==> r == Fail(TournamentNotFound)
    ensures data.tournamentId in tournaments &&
            tournaments[data.tournamentId].state !in {TournamentState.NotStarted, TournamentState.InProgress} ==>
      r == Fail(TournamentClosed)
    ensures r == Fail(OutsideRoundDates) ==>
      data.roundId in rounds && rounds[data.roundId].status == RoundStatus.Active &&
      data.team1 in teams && data.team2 in teams
  {
    if data.tournamentId !in tournaments then Fail(TournamentNotFound)
    else if tournaments[data.tournamentId].state !in {TournamentState.NotStarted, TournamentState.InProgress} then
      Fail(TournamentClosed)
    else if data.roundId !in rounds || rounds[data.roundId].tournamentId != data.tournamentId then Fail(InvalidRound)
    else if rounds[data.roundId].status != RoundStatus.Active then Fail(RoundNotActive)
    else if data.team1 !in teams || data.team2 !in teams then Fail(TeamNotFound)
    else if !InWindow(rounds[data.roundId], data.scheduledAt) then Fail(OutsideRoundDates)
    else Pass
  }

  /** The row `create_fixture` inserts: the request's fields, SCHEDULED, with
      nothing rescheduled or forfeited. */
  function NewFixture(data: FixtureCreate): (f: Fixture)
    ensures f.status == FixtureStatus.Scheduled
    ensures IsSide(f, data.team1) && IsSide(f, data.team2)
    ensures forall team :: IsSide(f, team) ==> team == data.team1 || team == data.team2
    ensures f.tournamentId == data.tournamentId && f.roundId == data.roundId && f.scheduledAt == data.scheduledAt
    ensures f.rescheduledFrom.None? && f.forfeitWinner.None?
  {
    Fixture(data.tournamentId, data.roundId, data.team1, Some(data.team2), data.matchFormat, data.scheduledAt,
            None, None, None, FixtureStatus.Scheduled, None, None, None)
  }

  /** A created fixture lies inside its active round's window and between two
      different teams. */
  lemma CreatedFixtureFitsRound(tournaments: map<Id, Tournament>, rounds: map<Id, Round>, teams: set<Id>, data: FixtureCreate)
    requires WellFormed(data)
    requires CreateCheck(tournaments, rounds, teams, data).Pass?
    ensures var f := NewFixture(data);
      && f.roundId in rounds && rounds[f.roundId].tournamentId == f.tournamentId
      && InWindow(rounds[f.roundId], f.scheduledAt)
      && f.team2 != Some(f.team1)
  {
  }

  method CreateFixture(db: CompetitionDb, data: FixtureCreate) returns (r: Result<Id, FixtureError>)
    requires WellFormed(data)
    modifies db`fixtures
    ensures r.Ok? <==> old(CreateCheck(db.tournaments, db.rounds, db.teams, data)).Pass?
    ensures r.Err? ==> old(CreateCheck(db.tournaments, db.rounds, db.teams, data)) == Fail(r.error)
    ensures r.Err? ==> db.fixtures == old(db.fixtures)
    ensures r.Ok? ==> r.value !in old(db.fixtures) && db.fixtures == old(db.fixtures)[r.value := NewFixture(data)]
    ensures SidesDiffer(old(db.fixtures)) ==> SidesDiffer(db.fixtures)
    ensures KeepsCompleted(old(db.fixtures), db.fixtures)
  {
    var check := CreateCheck(db.tournaments, db.rounds, db.teams, data);
    if check.Fail? {
      return Err(check.error);
    }
    var fid := FreshId(db.fixtures.Keys);
    db.fixtures := db.fixtures[fid := NewFixture(data)];
    return Ok(fid);
  }

  // ---------------------------------------------------------------------
  // update_fixture, reschedule_fixture

  /** A COMPLETED or CANCELLED fixture is locked against updates. */
  predicate IsLocked(f: Fixture)
  {
    f.status == FixtureStatus.Completed || f.status == FixtureStatus.Cancelled
  }

  /** The checks on a new time `t` for fixture `f`: its round must exist and
      `t` must lie in the round's window. */
  function WindowCheck(rounds: map<Id, Round>, f: Fixture, t: Time): (r: Outcome<FixtureError>)
    ensures r.Pass? <==> f.roundId in rounds && InWindow(rounds[f.roundId], t)
    ensures f.roundId !in rounds ==> r == Fail(RoundNotFound)
    ensures r.Fail? && f.roundId in rounds ==> r == Fail(OutsideRoundDates)
  {
    if f.roundId !in rounds then Fail(RoundNotFound)
    else if !InWindow(rounds[f.roundId], t) then Fail(OutsideRoundDates)
    else Pass
  }

  /** A field the update sets to a value rather than to null. */
  predicate SetsValue<T>(field: Option<Option<T>>)
  {
    field.Some? && field.value.Some?
  }

  /** The guards of `update_fixture`: the fixture is not locked and a new
      time, when one is given, passes the window check. A null time skips
      the check (`if update_data.scheduled_at` is false) and is then
      refused when it is stored, and so is a null status. */
  function UpdateCheck(rounds: map<Id, Round>, f: Fixture, u: FixtureUpdate): (r: Outcome<FixtureError>)
    ensures r.Pass? <==>
      && !IsLocked(f)
      && (u.scheduledAt.Some? ==> SetsValue(u.scheduledAt) && f.roundId in rounds && InWindow(rounds[f.roundId], u.scheduledAt.value.value))
      && u.status != Some(None)
    ensures IsLocked(f) ==> r == Fail(Locked)
    ensures !IsLocked(f) && u.scheduledAt == Some(None) ==> r == Fail(NullField)
  {
    if IsLocked(f) then Fail(Locked)
    else if SetsValue(u.scheduledAt) && WindowCheck(rounds, f, u.scheduledAt.value.value).Fail? then
      WindowCheck(rounds, f, u.scheduledAt.value.value)
    else if u.scheduledAt == Some(None) || u.status == Some(None) then Fail(NullField)
    else Pass
  }

  /** `update_fixture`'s field assignment: each field the request sets takes
      its value, and a null clears the admin notes; every other field is
      kept. (A null time or status never reaches this point.) */
  function Updated(f: Fixture, u: FixtureUpdate): (g: Fixture)
    ensures g.(scheduledAt := f.scheduledAt, status := f.status, adminNotes := f.adminNotes) == f
    ensures SetsValue(u.scheduledAt) ==> g.scheduledAt == u.scheduledAt.value.value
    ensures !SetsValue(u.scheduledAt) ==> g.scheduledAt == f.scheduledAt
    ensures SetsValue(u.status) ==> g.status == u.status.value.value
    ensures !SetsValue(u.status) ==> g.status == f.status
    ensures u.adminNotes.Some? ==> g.adminNotes == u.adminNotes.value
    ensures u.adminNotes.None? ==> g.adminNotes == f.adminNotes
  {
    f.(scheduledAt := if SetsValue(u.scheduledAt) then u.scheduledAt.value.value else f.scheduledAt,
       status := if SetsValue(u.status) then u.status.value.value else f.status,
       adminNotes := if u.adminNotes.Some? then u.adminNotes.value else f.adminNotes)
  }

  /** An update that sets nothing changes nothing. */
  lemma EmptyUpdateKeeps(f: Fixture)
    ensures Updated(f, FixtureUpdate(None, None, None)) == f
  {
  }

  /** Applying the same update twice is applying it once. */
  lemma UpdateIdempotent(f: Fixture, u: FixtureUpdate)
    ensures Updated(Updated(f, u), u) == Updated(f, u)
  {
  }

  method UpdateFixture(db: CompetitionDb, fid: Id, u: FixtureUpdate) returns (r: Outcome<FixtureError>)
    requires fid in db.fixtures
    modifies db`fixtures
    ensures r == old(UpdateCheck(db.rounds, db.fixtures[fid], u))
    ensures r.Fail? ==> db.fixtures == old(db.fixtures)
    ensures r.Pass? ==> db.fixtures == old(db.fixtures)[fid := Updated(old(db.fixtures[fid]), u)]
    ensures SidesDiffer(old(db.fixtures)) ==> SidesDiffer(db.fixtures)
    ensures KeepsCompleted(old(db.fixtures), db.fixtures)
  {
    r := UpdateCheck(db.rounds, db.fixtures[fid], u);
    if r.Pass? {
      db.fixtures := db.fixtures[fid := Updated(db.fixtures[fid], u)];
    }
  }

  /** The guards of `reschedule_fixture`. */
  function RescheduleCheck(rounds: map<Id, Round>, f: Fixture, t: Time): (r: Outcome<FixtureError>)
    ensures r.Pass? <==> !IsLocked(f) && f.roundId in rounds && InWindow(rounds[f.roundId], t)
    ensures IsLocked(f) ==> r == Fail(Locked)
  {
    if IsLocked(f) then Fail(Locked) else WindowCheck(rounds, f, t)
  }

  /** `reschedule_fixture`'s assignment: the old time is kept in
      `rescheduled_from` and the new time, author and reason are recorded. */
  function Rescheduled(f: Fixture, data: FixtureReschedule): (g: Fixture)
    ensures g.scheduledAt == data.scheduledAt && g.rescheduledFrom == Some(f.scheduledAt)
    ensures g.rescheduledBy == Some(data.rescheduledBy) && g.rescheduleReason == Some(data.reason)
    ensures g.status == f.status && g.team1 == f.team1 && g.team2 == f.team2 && g.roundId == f.roundId
  {
    f.(rescheduledFrom := Some(f.scheduledAt), scheduledAt := data.scheduledAt,
       rescheduledBy := Some(data.rescheduledBy), rescheduleReason := Some(data.reason))
  }

  /** A reschedule loses nothing but the previous reschedule record: the old
      time comes back from `rescheduled_from`. */
  lemma RescheduleUndoable(f: Fixture, data: FixtureReschedule)
    ensures var g := Rescheduled(f, data);
      g.(scheduledAt := g.rescheduledFrom.value, rescheduledFrom := f.rescheduledFrom,
         rescheduledBy := f.rescheduledBy, rescheduleReason := f.rescheduleReason) == f
  {
  }

  method RescheduleFixture(db: CompetitionDb, fid: Id, data: FixtureReschedule) returns (r: Outcome<FixtureError>)
    requires fid in db.fixtures
    modifies db`fixtures
    ensures r == old(RescheduleCheck(db.rounds, db.fixtures[fid], data.scheduledAt))
    ensures r.Fail? ==> db.fixtures == old(db.fixtures)
    ensures r.Pass? ==> db.fixtures == old(db.fixtures)[fid := Rescheduled(old(db.fixtures[fid]), data)]
    ensures SidesDiffer(old(db.fixtures)) ==> SidesDiffer(db.fixtures)
    ensures KeepsCompleted(old(db.fixtures), db.fixtures)
  {
    r := RescheduleCheck(db.rounds, db.fixtures[fid], data.scheduledAt);
    if r.Pass? {
      db.fixtures := db.fixtures[fid := Rescheduled(db.fixtures[fid], data)];
    }
  }

  // ---------------------------------------------------------------------
  // _check_round_completion and the round completion it triggers

  /** `_check_round_completion`: every fixture `get_round_fixtures` lists for
      the round is COMPLETED or FORFEITED; true for a round without
      fixtures. */
  function CheckRoundCompletion(fixtures: map<Id, Fixture>, rid: Id): (b: bool)
    ensures b <==> AllFinished(fixtures, rid)
    ensures FixturesOf(fixtures, rid) == {} ==> b
  {
    var fids := RoundFixtureList(fixtures, rid);
    forall i :: 0 <= i < |fids| ==> Finished(fixtures[fids[i]].status)
  }

  /** What a forfeit or a completion does to round `rid` once the fixture has
      changed, as the code is written: when the round exists and every
      fixture is finished, the round service's `complete_round` runs, and
      its exception, if any, fails the whole operation. */
  function RoundCompletionAsWritten(rounds: map<Id, Round>, fixtures: map<Id, Fixture>, rid: Id)
    : (r: Result<map<Id, Round>, FixtureError>)
    ensures rid !in rounds || !AllFinished(fixtures, rid) ==> r == Ok(rounds)
    ensures rid in rounds && AllFinished(fixtures, rid) ==>
      (r.Ok? <==> RoundService.CompleteCheck(rounds, fixtures, rid).Pass?)
  {
    if rid in rounds && CheckRoundCompletion(fixtures, rid) then
      match RoundService.CompleteCheck(rounds, fixtures, rid)
      case Fail(e) => Err(RoundNotCompleted(e))
      case Pass => Ok(RoundService.WithStatus(rounds, rid, RoundStatus.Completed))
    else Ok(rounds)
  }

  /** As written, the completion step can never follow a forfeit: the
      forfeited fixture is itself a fixture of the round that is not
      COMPLETED, so whenever the completion is attempted it raises. */
  lemma {:induction false} ForfeitThenCompletionFails(rounds: map<Id, Round>, fixtures: map<Id, Fixture>, fid: Id)
    requires fid in fixtures && fixtures[fid].status == FixtureStatus.Forfeited
    requires fixtures[fid].roundId in rounds && AllFinished(fixtures, fixtures[fid].roundId)
    ensures RoundCompletionAsWritten(rounds, fixtures, fixtures[fid].roundId).Err?
  {
    RoundService.ForfeitBlocksCompletion(rounds, fixtures, fixtures[fid].roundId, fid);
  }

  /** The smallest such case: an active round whose one SCHEDULED fixture is
      forfeited to its first team. */
  lemma ForfeitLastFixtureExample()
    ensures var round := Round(0, 1, GroupStage, None, 0, 7, RoundStatus.Active, None);
      var f := Fixture(0, 1, 10, Some(11), "bo1", 3, None, None, None, FixtureStatus.Scheduled, None, None, None);
      && ForfeitCheck(f, 10).Pass?
      && RoundCompletionAsWritten(map[1 := round], map[5 := Forfeited(f, 10, "no show")], 1).Err?
  {
    var round := Round(0, 1, GroupStage, None, 0, 7, RoundStatus.Active, None);
    var f := Fixture(0, 1, 10, Some(11), "bo1", 3, None, None, None, FixtureStatus.Scheduled, None, None, None);
    ForfeitThenCompletionFails(map[1 := round], map[5 := Forfeited(f, 10, "no show")], 5);
  }

  /** The completion the two operations evidently intend: once every fixture
      of the round is COMPLETED or FORFEITED, `complete_round` runs with a
      forfeited fixture counted as finished. Its other guard stays: a
      finished round that is not active raises "Round is not active", which
      fails the whole operation; an active one becomes "completed". */
  function RoundCompletion(rounds: map<Id, Round>, fixtures: map<Id, Fixture>, rid: Id)
    : (r: Result<map<Id, Round>, FixtureError>)
    ensures rid !in rounds || !AllFinished(fixtures, rid) ==> r == Ok(rounds)
    ensures rid in rounds && AllFinished(fixtures, rid) ==> (r.Ok? <==> rounds[rid].status == RoundStatus.Active)
    ensures r.Err? ==> r.error == RoundNotCompleted(RoundService.NotActive)
    ensures r.Ok? ==> r.value.Keys == rounds.Keys && forall q :: q in rounds && q != rid ==> r.value[q] == rounds[q]
    ensures r.Ok? && rid in rounds ==>
      && r.value[rid].(status := rounds[rid].status) == rounds[rid]
      && (r.value[rid].status == RoundStatus.Completed <==>
            rounds[rid].status == RoundStatus.Completed || AllFinished(fixtures, rid))
  {
    if rid in rounds && CheckRoundCompletion(fixtures, rid) then
      if rounds[rid].status != RoundStatus.Active then Err(RoundNotCompleted(RoundService.NotActive))
      else Ok(RoundService.WithStatus(rounds, rid, RoundStatus.Completed))
    else Ok(rounds)
  }

  /** Where no fixture of the round is forfeited, the intended completion
      is exactly what the code does, refusals included. */
  lemma CompletionAgreesWithoutForfeits(rounds: map<Id, Round>, fixtures: map<Id, Fixture>, rid: Id)
    requires forall fid :: fid in fixtures && fixtures[fid].roundId == rid ==> fixtures[fid].status != FixtureStatus.Forfeited
    ensures RoundCompletionAsWritten(rounds, fixtures, rid) == RoundCompletion(rounds, fixtures, rid)
  {
  }

  // ---------------------------------------------------------------------
  // forfeit_fixture, complete_fixture

  /** The guards of `forfeit_fixture`: the fixture is not COMPLETED and the
      winner is one of its two sides. */
  function ForfeitCheck(f: Fixture, winner: Id): (r: Outcome<FixtureError>)
    ensures r.Pass? <==> f.status != FixtureStatus.Completed && IsSide(f, winner)
    ensures f.status == FixtureStatus.Completed ==> r == Fail(AlreadyCompleted)
    ensures f.status != FixtureStatus.Completed && !IsSide(f, winner) ==> r == Fail(WinnerNotASide)
  {
    if f.status == FixtureStatus.Completed then Fail(AlreadyCompleted)
    else if !IsSide(f, winner) then Fail(WinnerNotASide)
    else Pass
  }

  /** The forfeited fixture: FORFEITED, won by `winner` for `reason`. */
  function Forfeited(f: Fixture, winner: Id, reason: string): (g: Fixture)
    ensures g.status == FixtureStatus.Forfeited && Finished(g.status)
    ensures g.forfeitWinner == Some(winner) && g.forfeitReason == Some(reason)
    ensures g.(status := f.status, forfeitWinner := f.forfeitWinner, forfeitReason := f.forfeitReason) == f
  {
    f.(status := FixtureStatus.Forfeited, forfeitWinner := Some(winner), forfeitReason := Some(reason))
  }

  /** `forfeit_fixture`: after the guards the fixture is FORFEITED to
      `winner`, and the round is completed when that finishes it; a refusal
      of the round completion fails the forfeit, which is then not kept. */
  method ForfeitFixture(db: CompetitionDb, fid: Id, winner: Id, reason: string) returns (r: Outcome<FixtureError>)
    requires fid in db.fixtures
    modifies db`fixtures, db`rounds
    ensures old(ForfeitCheck(db.fixtures[fid], winner)).Fail? ==> r == old(ForfeitCheck(db.fixtures[fid], winner))
    ensures r.Fail? ==> db.fixtures == old(db.fixtures) && db.rounds == old(db.rounds)
    ensures old(ForfeitCheck(db.fixtures[fid], winner)).Pass? ==>
      var after := old(db.fixtures)[fid := Forfeited(old(db.fixtures[fid]), winner, reason)];
      var c := RoundCompletion(old(db.rounds), after, old(db.fixtures[fid].roundId));
      && (c.Err? ==> r == Fail(c.error))
      && (c.Ok? ==> r.Pass? && db.fixtures == after && db.rounds == c.value)
    ensures r.Pass? ==> IsSide(db.fixtures[fid], winner)
    ensures SidesDiffer(old(db.fixtures)) ==> SidesDiffer(db.fixtures)
    ensures KeepsCompleted(old(db.fixtures), db.fixtures)
  {
    var f := db.fixtures[fid];
    r := ForfeitCheck(f, winner);
    if r.Fail? {
      return;
    }
    var after := db.fixtures[fid := Forfeited(f, winner, reason)];
    var c := RoundCompletion(db.rounds, after, f.roundId);
    if c.Err? {
      return Fail(c.error);
    }
    db.fixtures := after;
    db.rounds := c.value;
  }

  /** The completed fixture: only an IN_PROGRESS fixture becomes COMPLETED. */
  function CompleteCheck(f: Fixture): (r: Outcome<FixtureError>)
    ensures r.Pass? <==> f.status == FixtureStatus.InProgress
    ensures r.Fail? ==> r.error == NotInProgress
  {
    if f.status != FixtureStatus.InProgress then Fail(NotInProgress) else Pass
  }

  /** `complete_fixture`: an IN_PROGRESS fixture becomes COMPLETED, and the
      round is completed when that finishes it; a refusal of the round
      completion fails the completion, which is then not kept. */
  method CompleteFixture(db: CompetitionDb, fid: Id) returns (r: Outcome<FixtureError>)
    requires fid in db.fixtures
    modifies db`fixtures, db`rounds
    ensures old(CompleteCheck(db.fixtures[fid])).Fail? ==> r == old(CompleteCheck(db.fixtures[fid]))
    ensures r.Fail? ==> db.fixtures == old(db.fixtures) && db.rounds == old(db.rounds)
    ensures old(CompleteCheck(db.fixtures[fid])).Pass? ==>
      var after := old(db.fixtures)[fid := old(db.fixtures[fid]).(status := FixtureStatus.Completed)];
      var c := RoundCompletion(old(db.rounds), after, old(db.fixtures[fid].roundId));
      && (c.Err? ==> r == Fail(c.error))
      && (c.Ok? ==> r.Pass? && db.fixtures == after && db.rounds == c.value)
    ensures SidesDiffer(old(db.fixtures)) ==> SidesDiffer(db.fixtures)
    ensures KeepsCompleted(old(db.fixtures), db.fixtures)
  {
    var f := db.fixtures[fid];
    r := CompleteCheck(f);
    if r.Fail? {
      return;
    }
    var after := db.fixtures[fid := f.(status := FixtureStatus.Completed)];
    var c := RoundCompletion(db.rounds, after, f.roundId);
    if c.Err? {
      return Fail(c.error);
    }
    db.fixtures := after;
    db.rounds := c.value;
  }

  /** No operation of this service accepts a COMPLETED fixture, so a
      completed fixture is final. */
  lemma CompletedIsFinal(rounds: map<Id, Round>, f: Fixture, u: FixtureUpdate, t: Time, winner: Id)
    requires f.status == FixtureStatus.Completed
    ensures UpdateCheck(rounds, f, u).Fail? && RescheduleCheck(rounds, f, t).Fail?
    ensures ForfeitCheck(f, winner).Fail? && CompleteCheck(f).Fail?
  {
  }

  // ---------------------------------------------------------------------
  // add_match_player

  /** The guards of `add_match_player`. */
  function AddPlayerCheck(fixtures: map<Id, Fixture>, p: MatchPlayer): (r: Outcome<FixtureError>)
    ensures r.Pass? <==>
      p.fixtureId in fixtures && fixtures[p.fixtureId].status == FixtureStatus.Scheduled && IsSide(fixtures[p.fixtureId], p.teamId)
    ensures p.fixtureId !in fixtures ==> r == Fail(FixtureNotFound)
    ensures p.fixtureId in fixtures && fixtures[p.fixtureId].status != FixtureStatus.Scheduled ==> r == Fail(NotScheduled)
  {
    if p.fixtureId !in fixtures then Fail(FixtureNotFound)
    else if fixtures[p.fixtureId].status != FixtureStatus.Scheduled then Fail(NotScheduled)
    else if !IsSide(fixtures[p.fixtureId], p.teamId) then Fail(TeamNotASide)
    else Pass
  }

  method AddMatchPlayer(db: CompetitionDb, p: MatchPlayer) returns (r: Result<Id, FixtureError>)
    modifies db`matchPlayers
    ensures r.Ok? <==> old(AddPlayerCheck(db.fixtures, p)).Pass?
    ensures r.Err? ==> old(AddPlayerCheck(db.fixtures, p)) == Fail(r.error) && db.matchPlayers == old(db.matchPlayers)
    ensures r.Ok? ==> r.value !in old(db.matchPlayers) && db.matchPlayers == old(db.matchPlayers)[r.value := p]
  {
    var check := AddPlayerCheck(db.fixtures, p);
    if check.Fail? {
      return Err(check.error);
    }
    var id := FreshId(db.matchPlayers.Keys);
    db.matchPlayers := db.matchPlayers[id := p];
    return Ok(id);
  }
}
