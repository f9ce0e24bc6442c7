/** The per-map result workflow of a fixture: a captain of either side
    submits a map result (PENDING); the captain of the "opposing" team
    confirms or disputes it; an admin override forces it CONFIRMED with new
    scores. Once every result of a fixture is CONFIRMED the fixture is
    completed through the fixture service. A summary of a fixture's results
    counts maps and rounds.

    The opposing team is derived by comparing the submitter's player id with
    the fixture's `team_1` id, as the code does; player ids and team ids come
    from different tables, so the comparison is false in practice and the
    opposing team is always `team_1` (src/matches/service.py:137-139). The
    captain check is the lookup of a (team, player) captain row.

    The fixture service is the model's own: as written, a match service
    built without one constructs `FixtureService(audit_service, None)`
    (src/matches/service.py:32 and :342), and the fixture service's
    constructor takes no arguments, so that construction raises. */
module MatchService {
  import opened Common
  import opened CompetitionData
  import opened MatchModels
  import FixtureService

  datatype MatchError =
    | FixtureNotFound
    | NotInProgress
    /** A side of the fixture has no team row to check captaincy against. */
    | TeamMissing
    | NotACaptain
    | ResultNotFound
    | NotPending
    | NotOpposingCaptain
    | NotScheduled
    | InvalidTeam
    /** An exception raised by the fixture service's `complete_fixture`. */
    | FixtureNotCompleted(cause: FixtureService.FixtureError)

  /** The body of a result submission. */
  datatype ResultCreate = ResultCreate(
    mapId: Id, mapNumber: int, team1Score: int, team2Score: int, team1SideFirst: string,
    demoUrl: Option<string>, screenshotUrls: seq<string>)

  /** What the request schema guarantees: a map number of at least 1, scores
      between 0 and 100 and a first side of CT or T. */
  predicate WellFormed(data: ResultCreate)
  {
    && data.mapNumber >= 1
    && 0 <= data.team1Score <= 100 && 0 <= data.team2Score <= 100
    && data.team1SideFirst in {"CT", "T"}
  }

  // ---------------------------------------------------------------------
  // submit_result

  /** The guards of `submit_result`: an IN_PROGRESS fixture whose two teams
      exist, submitted by a captain of one of them. */
  function SubmitCheck(fixtures: map<Id, Fixture>, teams: set<Id>, captains: set<(Id, Id)>, fid: Id, player: Id)
    : (r: Outcome<MatchError>)
    ensures r.Pass? <==>
      && fid in fixtures && fixtures[fid].status == FixtureStatus.InProgress
      && fixtures[fid].team1 in teams && fixtures[fid].team2.Some? && fixtures[fid].team2.value in teams
      && ((fixtures[fid].team1, player) in captains || (fixtures[fid].team2.value, player) in captains)
    ensures fid !in fixtures ==> r == Fail(FixtureNotFound)
    ensures fid in fixtures && fixtures[fid].status != FixtureStatus.InProgress ==> r == Fail(NotInProgress)
  {
    if fid !in fixtures then Fail(FixtureNotFound)
    else if fixtures[fid].status != FixtureStatus.InProgress then Fail(NotInProgress)
    else if fixtures[fid].team1 !in teams || fixtures[fid].team2.None? || fixtures[fid].team2.value !in teams then
      Fail(TeamMissing)
    else if !((fixtures[fid].team1, player) in captains || (fixtures[fid].team2.value, player) in captains) then
      Fail(NotACaptain)
    else Pass
  }

  /** The result row a submission creates: PENDING, not confirmed, not
      overridden, with the submitted scores. */
  function SubmittedResult(fid: Id, data: ResultCreate, player: Id): (res: MapResult)
    ensures res.fixtureId == fid && res.submittedBy == player
    ensures res.status == PendingConfirmation && res.confirmedBy.None? && !res.adminOverride
    ensures res.team1Score == data.team1Score && res.team2Score == data.team2Score
  {
    MapResult(fid, data.mapId, data.mapNumber, data.team1Score, data.team2Score, data.team1SideFirst,
              player, None, PendingConfirmation, false, None, None, None, [], data.demoUrl, data.screenshotUrls)
  }

  method SubmitResult(db: CompetitionDb, fid: Id, data: ResultCreate, player: Id) returns (r: Result<Id, MatchError>)
    requires WellFormed(data)
    modifies db`results
    ensures r.Ok? <==> old(SubmitCheck(db.fixtures, db.teams, db.captains, fid, player)).Pass?
    ensures r.Err? ==> old(SubmitCheck(db.fixtures, db.teams, db.captains, fid, player)) == Fail(r.error)
    ensures r.Err? ==> db.results == old(db.results)
    ensures r.Ok? ==> r.value !in old(db.results) && db.results == old(db.results)[r.value := SubmittedResult(fid, data, player)]
  {
    var check := SubmitCheck(db.fixtures, db.teams, db.captains, fid, player);
    if check.Fail? {
      return Err(check.error);
    }
    var id := FreshId(db.results.Keys);
    db.results := db.results[id := SubmittedResult(fid, data, player)];
    return Ok(id);
  }

  // ---------------------------------------------------------------------
  // The opposing team, confirm_result, dispute_result

  /** The team whose captain may confirm or dispute a result submitted by
      `submittedBy`: `submitting_team` is `team_1` when the submitter's id
      equals `team_1`'s id and `team_2` otherwise; the opposing team is the
      other one. The comparison of a player id with a team id is the code's
      own (src/matches/service.py:137-139). */
  function OpposingTeam(f: Fixture, submittedBy: Id): (t: Option<Id>)
    ensures submittedBy == f.team1 ==> t == f.team2
  {
    var submitting := if submittedBy == f.team1 then Some(f.team1) else f.team2;
    if submitting == Some(f.team1) then f.team2 else Some(f.team1)
  }

  /** A submitter whose id is not `team_1`'s id (every player, since player
      ids are not team ids) leaves `team_1` as the opposing team, whichever
      side the submitter captains. */
  lemma OpposingTeamIsTeam1(f: Fixture, submittedBy: Id)
    requires submittedBy != f.team1
    requires f.team2 != Some(f.team1)
    ensures OpposingTeam(f, submittedBy) == Some(f.team1)
  {
  }

  /** The guards shared by `confirm_result` and `dispute_result`: the result
      exists and is PENDING, its fixture exists, and the acting player
      captains the opposing team. */
  function OpposingCaptainCheck(results: map<Id, MapResult>, fixtures: map<Id, Fixture>, captains: set<(Id, Id)>,
                                resid: Id, player: Id): (r: Outcome<MatchError>)
    ensures r.Pass? <==>
      && resid in results && results[resid].status == PendingConfirmation
      && results[resid].fixtureId in fixtures
      && var team := OpposingTeam(fixtures[results[resid].fixtureId], results[resid].submittedBy);
         team.Some? && (team.value, player) in captains
    ensures resid !in results ==> r == Fail(ResultNotFound)
    ensures resid in results && results[resid].status != PendingConfirmation ==> r == Fail(NotPending)
  {
    if resid !in results then Fail(ResultNotFound)
    else if results[resid].status != PendingConfirmation then Fail(NotPending)
    else if results[resid].fixtureId !in fixtures then Fail(FixtureNotFound)
    else
      var team := OpposingTeam(fixtures[results[resid].fixtureId], results[resid].submittedBy);
      if team.None? then Fail(TeamMissing)
      else if (team.value, player) !in captains then Fail(NotOpposingCaptain)
      else Pass
  }

  /** A captain of `team_1` can confirm (or dispute) a result they submitted
      themselves, and a captain of `team_2` only, who did not submit it,
      cannot. */
  lemma {:induction false} Team1CaptainConfirmsOwnResult(results: map<Id, MapResult>, fixtures: map<Id, Fixture>,
                                                         captains: set<(Id, Id)>, resid: Id, player: Id)
    requires resid in results && results[resid].status == PendingConfirmation
    requires results[resid].fixtureId in fixtures
    requires var f := fixtures[results[resid].fixtureId];
      results[resid].submittedBy == player && player != f.team1 && f.team2 != Some(f.team1)
    ensures var f := fixtures[results[resid].fixtureId];
      OpposingCaptainCheck(results, fixtures, captains, resid, player).Pass? <==> (f.team1, player) in captains
  {
    var f := fixtures[results[resid].fixtureId];
    OpposingTeamIsTeam1(f, player);
  }

  /** The confirmed result: CONFIRMED by `player`, scores unchanged. */
  function ConfirmedBy(res: MapResult, player: Id): (c: MapResult)
    ensures c.status == Confirmed && c.confirmedBy == Some(player)
    ensures c.(status := res.status, confirmedBy := res.confirmedBy) == res
  {
    res.(status := Confirmed, confirmedBy := Some(player))
  }

  /** The disputed result: DISPUTED with the reason and the evidence links
      (no links given is an empty list). */
  function DisputedWith(res: MapResult, reason: string, evidence: seq<string>): (d: MapResult)
    ensures d.status == Disputed && d.disputeReason == Some(reason) && d.disputeEvidence == evidence
    ensures d.(status := res.status, disputeReason := res.disputeReason, disputeEvidence := res.disputeEvidence) == res
  {
    res.(status := Disputed, disputeReason := Some(reason), disputeEvidence := evidence)
  }

  /** `_check_all_maps_confirmed`: every result of the fixture, in the order
      the query lists them, is CONFIRMED; true when there is none. */
  function CheckAllMapsConfirmed(results: map<Id, MapResult>, fid: Id): (b: bool)
    ensures b <==> forall id :: id in results && results[id].fixtureId == fid ==> results[id].status == Confirmed
  {
    var ids := Ordered(ResultsOf(results, fid));
    assert forall id :: id in results && results[id].fixtureId == fid ==> id in ResultsOf(results, fid);
    assert forall i :: 0 <= i < |ids| ==> ids[i] in ResultsOf(results, fid);
    forall i :: 0 <= i < |ids| ==> results[ids[i]].status == Confirmed
  }

  /** Ids of the results of fixture `fid`. */
  function ResultsOf(results: map<Id, MapResult>, fid: Id): set<Id>
  {
    set id | id in results && results[id].fixtureId == fid
  }

  /** Completing the fixture after a confirmation: when every result of
      fixture `fid` is CONFIRMED, `complete_fixture` runs and its failure
      fails the confirmation; otherwise nothing more happens. The tables
      are left as they are when this fails. */
  method CompleteIfAllConfirmed(db: CompetitionDb, results: map<Id, MapResult>, fid: Id) returns (r: Outcome<MatchError>)
    requires fid in db.fixtures
    modifies db`fixtures, db`rounds
    ensures !CheckAllMapsConfirmed(results, fid) ==> r.Pass? && db.fixtures == old(db.fixtures) && db.rounds == old(db.rounds)
    ensures CheckAllMapsConfirmed(results, fid) ==>
      var after := old(db.fixtures)[fid := old(db.fixtures[fid]).(status := FixtureStatus.Completed)];
      var c := FixtureService.RoundCompletion(old(db.rounds), after, old(db.fixtures[fid].roundId));
      && (r.Pass? <==> old(db.fixtures[fid].status) == FixtureStatus.InProgress && c.Ok?)
      && (old(db.fixtures[fid].status) != FixtureStatus.InProgress ==>
            r == Fail(FixtureNotCompleted(FixtureService.NotInProgress)))
      && (old(db.fixtures[fid].status) == FixtureStatus.InProgress && c.Err? ==> r == Fail(FixtureNotCompleted(c.error)))
      && (r.Fail? ==> db.fixtures == old(db.fixtures) && db.rounds == old(db.rounds))
      && (r.Pass? ==> db.fixtures == after && db.rounds == c.value)
  {
    if !CheckAllMapsConfirmed(results, fid) {
      return Pass;
    }
    var c := FixtureService.CompleteFixture(db, fid);
    if c.Fail? {
      return Fail(FixtureNotCompleted(c.error));
    }
    return Pass;
  }

  method ConfirmResult(db: CompetitionDb, resid: Id, player: Id) returns (r: Outcome<MatchError>)
    modifies db`results, db`fixtures, db`rounds
    ensures old(OpposingCaptainCheck(db.results, db.fixtures, db.captains, resid, player)).Fail? ==>
      r == old(OpposingCaptainCheck(db.results, db.fixtures, db.captains, resid, player))
    ensures r.Fail? ==> db.results == old(db.results) && db.fixtures == old(db.fixtures) && db.rounds == old(db.rounds)
    ensures r.Pass? ==> old(OpposingCaptainCheck(db.results, db.fixtures, db.captains, resid, player)).Pass?
    ensures r.Pass? ==> db.results == old(db.results)[resid := ConfirmedBy(old(db.results[resid]), player)]
    // the fixture is completed exactly when this confirmation was the last one
    ensures r.Pass? ==>
      var fid := old(db.results[resid]).fixtureId;
      if CheckAllMapsConfirmed(db.results, fid) then
        old(db.fixtures[fid].status) == FixtureStatus.InProgress &&
        db.fixtures == old(db.fixtures)[fid := old(db.fixtures[fid]).(status := FixtureStatus.Completed)]
      else db.fixtures == old(db.fixtures) && db.rounds == old(db.rounds)
  {
    r := OpposingCaptainCheck(db.results, db.fixtures, db.captains, resid, player);
    if r.Fail? {
      return;
    }
    var fid := db.results[resid].fixtureId;
    var results := db.results[resid := ConfirmedBy(db.results[resid], player)];
    r := CompleteIfAllConfirmed(db, results, fid);
    if r.Pass? {
      db.results := results;
    }
  }

  method DisputeResult(db: CompetitionDb, resid: Id, player: Id, reason: string, evidence: seq<string>)
    returns (r: Outcome<MatchError>)
    modifies db`results
    ensures r == old(OpposingCaptainCheck(db.results, db.fixtures, db.captains, resid, player))
    ensures r.Fail? ==> db.results == old(db.results)
    ensures r.Pass? ==> db.results == old(db.results)[resid := DisputedWith(old(db.results[resid]), reason, evidence)]
  {
    r := OpposingCaptainCheck(db.results, db.fixtures, db.captains, resid, player);
    if r.Pass? {
      db.results := db.results[resid := DisputedWith(db.results[resid], reason, evidence)];
    }
  }

  /** CONFIRMED and DISPUTED results cannot be confirmed or disputed again:
      only an admin override leaves those states. */
  lemma SettledResultsOnlyOverridden(results: map<Id, MapResult>, fixtures: map<Id, Fixture>, captains: set<(Id, Id)>,
                                     resid: Id, player: Id)
    requires resid in results && results[resid].status != PendingConfirmation
    ensures OpposingCaptainCheck(results, fixtures, captains, resid, player) == Fail(NotPending)
  {
  }

  // ---------------------------------------------------------------------
  // admin_override_result

  /** The overridden result: the given scores, overridden by `admin` for
      `reason`, CONFIRMED whatever the status was. */
  function Overridden(res: MapResult, team1Score: int, team2Score: int, admin: Id, reason: string): (o: MapResult)
    ensures o.status == Confirmed && o.adminOverride
    ensures o.team1Score == team1Score && o.team2Score == team2Score
    ensures o.adminOverrideBy == Some(admin) && o.adminOverrideReason == Some(reason)
    ensures o.fixtureId == res.fixtureId && o.submittedBy == res.submittedBy && o.confirmedBy == res.confirmedBy
  {
    res.(team1Score := team1Score, team2Score := team2Score, adminOverride := true,
         adminOverrideBy := Some(admin), adminOverrideReason := Some(reason), status := Confirmed)
  }

  /** Overriding twice with the same data is overriding once. */
  lemma OverrideIdempotent(res: MapResult, team1Score: int, team2Score: int, admin: Id, reason: string)
    ensures var o := Overridden(res, team1Score, team2Score, admin, reason);
      Overridden(o, team1Score, team2Score, admin, reason) == o
  {
  }

  method AdminOverrideResult(db: CompetitionDb, resid: Id, team1Score: int, team2Score: int, admin: Id, reason: string)
    returns (r: Outcome<MatchError>)
    modifies db`results, db`fixtures, db`rounds
    ensures resid !in old(db.results) ==> r == Fail(ResultNotFound)
    ensures resid in old(db.results) && old(db.results[resid]).fixtureId !in old(db.fixtures) ==> r == Fail(FixtureNotFound)
    ensures r.Fail? ==> db.results == old(db.results) && db.fixtures == old(db.fixtures) && db.rounds == old(db.rounds)
    ensures r.Pass? ==> resid in old(db.results)
    ensures r.Pass? ==>
      db.results == old(db.results)[resid := Overridden(old(db.results[resid]), team1Score, team2Score, admin, reason)]
    ensures r.Pass? ==>
      var fid := old(db.results[resid]).fixtureId;
      if CheckAllMapsConfirmed(db.results, fid) then
        old(db.fixtures[fid].status) == FixtureStatus.InProgress &&
        db.fixtures == old(db.fixtures)[fid := old(db.fixtures[fid]).(status := FixtureStatus.Completed)]
      else db.fixtures == old(db.fixtures) && db.rounds == old(db.rounds)
  {
    if resid !in db.results {
      return Fail(ResultNotFound);
    }
    var fid := db.results[resid].fixtureId;
    if fid !in db.fixtures {
      return Fail(FixtureNotFound);
    }
    var results := db.results[resid := Overridden(db.results[resid], team1Score, team2Score, admin, reason)];
    r := CompleteIfAllConfirmed(db, results, fid);
    if r.Pass? {
      db.results := results;
    }
  }

  // ---------------------------------------------------------------------
  // add_match_player

  /** `add_match_player` of the match service: the same checks, in the same
      order, as the fixture service's, raised as this service's errors. */
  method AddMatchPlayer(db: CompetitionDb, p: MatchPlayer) returns (r: Result<Id, MatchError>)
    modifies db`matchPlayers
    ensures r.Ok? <==> old(FixtureService.AddPlayerCheck(db.fixtures, p)).Pass?
    ensures p.fixtureId !in old(db.fixtures) ==> r == Err(FixtureNotFound)
    ensures p.fixtureId in old(db.fixtures) && old(db.fixtures[p.fixtureId].status) != FixtureStatus.Scheduled ==>
      r == Err(NotScheduled)
    ensures r.Err? ==> db.matchPlayers == old(db.matchPlayers)
    ensures r.Ok? ==> r.value !in old(db.matchPlayers) && db.matchPlayers == old(db.matchPlayers)[r.value := p]
  {
    var added := FixtureService.AddMatchPlayer(db, p);
    if added.Err? {
      var e := match added.error
        case FixtureNotFound => FixtureNotFound
        case NotScheduled => NotScheduled
        case _ => InvalidTeam;
      return Err(e);
    }
    return Ok(added.value);
  }

  // ---------------------------------------------------------------------
  // get_match_summary

  datatype MatchSummary = MatchSummary(
    totalMaps: nat, team1Maps: nat, team2Maps: nat, team1Rounds: int, team2Rounds: int,
    mapsComplete: bool, hasDisputes: bool)

  predicate Team1Won(res: MapResult) { res.team1Score > res.team2Score }
  predicate Team2Won(res: MapResult) { res.team2Score > res.team1Score }
  predicate Drawn(res: MapResult) { res.team1Score == res.team2Score }
  predicate AnyDisputed(rs: seq<MapResult>) { exists i :: 0 <= i < |rs| && rs[i].status == Disputed }
  function Team1Score(res: MapResult): int { res.team1Score }
  function Team2Score(res: MapResult): int { res.team2Score }

  /** Every map is won by one side or drawn, so the three counts add up to
      the number of maps. */
  lemma {:induction false} MapsPartition(rs: seq<MapResult>)
    ensures CountIf(rs, Team1Won) + CountIf(rs, Team2Won) + CountIf(rs, Drawn) == |rs|
  {
    if rs != [] {
      MapsPartition(rs[1..]);
    }
  }

  /** `get_match_summary` over the fixture's results `rs`: None when there
      are none; otherwise the map count, the maps each side won (draws count
      for neither), each side's total rounds, whether every map is
      CONFIRMED and whether any is DISPUTED. */
  function MatchSummaryOf(rs: seq<MapResult>): (s: Option<MatchSummary>)
    ensures s.None? <==> rs == []
    ensures s.Some? ==> s.value.totalMaps == |rs|
    ensures s.Some? ==> s.value.team1Maps + s.value.team2Maps + CountIf(rs, Drawn) == s.value.totalMaps
    ensures s.Some? ==> s.value.team1Maps + s.value.team2Maps <= s.value.totalMaps
    ensures s.Some? ==> s.value.team1Maps == CountIf(rs, Team1Won) && s.value.team2Maps == CountIf(rs, Team2Won)
    ensures s.Some? ==> s.value.team1Rounds == SumOf(rs, Team1Score) && s.value.team2Rounds == SumOf(rs, Team2Score)
    ensures s.Some? ==> (s.value.mapsComplete <==> forall i :: 0 <= i < |rs| ==> rs[i].status == Confirmed)
    ensures s.Some? ==> (s.value.hasDisputes <==> AnyDisputed(rs))
  {
    if rs == [] then None
    else
      MapsPartition(rs);
      Some(MatchSummary(
        |rs|, CountIf(rs, Team1Won), CountIf(rs, Team2Won),
        SumOf(rs, Team1Score), SumOf(rs, Team2Score),
        CountIf(rs, (res: MapResult) => res.status == Confirmed) == |rs|,
        CountIf(rs, (res: MapResult) => res.status == Disputed) > 0))
  }

  /** Round totals of two runs of maps add up. */
  lemma {:induction false} RoundsAppend(a: seq<MapResult>, b: seq<MapResult>, f: MapResult -> int)
    ensures SumOf(a + b, f) == SumOf(a, f) + SumOf(b, f)
  {
    if a == [] {
      assert a + b == b;
    } else {
      assert (a + b)[1..] == a[1..] + b;
      RoundsAppend(a[1..], b, f);
    }
  }

  /** One more map in a match: the map count grows by one, the side that won
      it gains a map (a draw counts for neither), and its scores are added
      to the round totals. */
  lemma SummaryAppend(rs: seq<MapResult>, x: MapResult)
    requires rs != []
    ensures var a := MatchSummaryOf(rs).value;
      var b := MatchSummaryOf(rs + [x]).value;
      && b.totalMaps == a.totalMaps + 1
      && b.team1Maps == a.team1Maps + (if Team1Won(x) then 1 else 0)
      && b.team2Maps == a.team2Maps + (if Team2Won(x) then 1 else 0)
      && b.team1Rounds == a.team1Rounds + x.team1Score
      && b.team2Rounds == a.team2Rounds + x.team2Score
  {
    CountIfAppend(rs, [x], Team1Won);
    CountIfAppend(rs, [x], Team2Won);
    RoundsAppend(rs, [x], Team1Score);
    RoundsAppend(rs, [x], Team2Score);
  }

  /** One more map in a match: the match has a dispute exactly when it had
      one or this map is disputed. */
  lemma DisputeAppend(rs: seq<MapResult>, x: MapResult)
    requires rs != []
    ensures MatchSummaryOf(rs + [x]).value.hasDisputes <==> MatchSummaryOf(rs).value.hasDisputes || x.status == Disputed
  {
    var t := rs + [x];
    if AnyDisputed(t) {
      var i :| 0 <= i < |t| && t[i].status == Disputed;
      if i < |rs| {
        assert rs[i] == t[i];
      }
    }
    if AnyDisputed(rs) {
      var i :| 0 <= i < |rs| && rs[i].status == Disputed;
      assert t[i] == rs[i];
    }
    assert t[|rs|] == x;
  }

  /** With the schema's bounds every map's scores are at least 0, so each
      side's round total is at least 0. */
  lemma {:induction false} RoundsNonNegative(rs: seq<MapResult>)
    requires forall i :: 0 <= i < |rs| ==> rs[i].team1Score >= 0
    ensures SumOf(rs, Team1Score) >= 0
  {
    if rs != [] {
      RoundsNonNegative(rs[1..]);
    }
  }
}
