/** The team service: the team table, team creation with its first captain
    and roster entry, disbanding, and the current/previous team split of a
    player's roster rows. It writes the captain and roster tables directly,
    without the status-transition service, and checks captaincy against any
    captain record whatever its status. The column defaults it relies on
    are taken as ACTIVE for a new team, captain record and roster entry. */
module Teams {
  import opened Common
  import opened StableSort
  import opened StatusChecks
  import Rosters
  import Captains

  /** A row of the team table. */
  datatype Team = Team(id: Id, name: string, logo: Option<string>, status: Status, createdAt: Time, updatedAt: Time,
                       recruiting: bool, disbandedAt: Option<Time>, disbandedReason: Option<string>,
                       disbandedBy: Option<Id>)

  /** `TeamUpdate` after `model_dump(exclude_unset=True)`: the name only
      when given; the recruitment flag is a required field. */
  datatype TeamUpdate = TeamUpdate(name: Option<string>, recruiting: bool)

  datatype TeamError = AlreadyCaptain | NoActiveSeason

  /** The visibility filter of `get_all_teams`. */
  predicate Visible(t: Team, includeDisbanded: bool)
  {
    includeDisbanded || t.status == TeamActive
  }

  function CreatedKey(t: Team): Key
  {
    Key(t.createdAt, 0, 0)
  }

  /** `get_all_teams`: the ACTIVE teams, or all teams with
      `include_disbanded`, newest first. */
  function AllTeams(teams: seq<Team>, includeDisbanded: bool): (r: seq<Team>)
    ensures multiset(r) == multiset(Filter(teams, t => Visible(t, includeDisbanded)))
    ensures forall t :: t in r <==> t in teams && Visible(t, includeDisbanded)
    ensures forall i, j :: 0 <= i < j < |r| ==> r[i].createdAt >= r[j].createdAt
  {
    var visible := Filter(teams, t => Visible(t, includeDisbanded));
    var r := SortDesc(visible, CreatedKey);
    SortDescCorrect(visible, CreatedKey);
    assert forall t :: t in r <==> t in visible by {
      forall t ensures t in r <==> t in visible {
        assert t in r <==> t in multiset(r);
        assert t in visible <==> t in multiset(visible);
      }
    }
    r
  }

  /** The team table seen by the roster history: name and status by id. */
  function TeamTable(teams: seq<Team>): (m: map<Id, Rosters.TeamInfo>)
    ensures forall k :: 0 <= k < |teams| ==> teams[k].id in m
  {
    if teams == [] then map[]
    else TeamTable(teams[1..])[teams[0].id := Rosters.TeamInfo(teams[0].name, teams[0].status)]
  }

  // ------------------------------------------------- current and previous

  /** A row of the active season on an ACTIVE team, whatever its roster
      status. */
  predicate Candidate(e: Rosters.Entry, season: Id, teams: map<Id, Rosters.TeamInfo>)
    requires e.teamId in teams
  {
    e.seasonId == season && teams[e.teamId].status == TeamActive
  }

  /** A row of another season or of a team that is not ACTIVE. */
  predicate Former(e: Rosters.Entry, season: Id, teams: map<Id, Rosters.TeamInfo>)
    requires e.teamId in teams
  {
    e.seasonId != season || teams[e.teamId].status != TeamActive
  }

  function Candidates(rows: seq<Rosters.Entry>, season: Id, teams: map<Id, Rosters.TeamInfo>): seq<Rosters.Entry>
  {
    Filter(rows, (e: Rosters.Entry) => e.teamId in teams && Candidate(e, season, teams))
  }

  function Formers(rows: seq<Rosters.Entry>, season: Id, teams: map<Id, Rosters.TeamInfo>): seq<Rosters.Entry>
  {
    Filter(rows, (e: Rosters.Entry) => e.teamId in teams && Former(e, season, teams))
  }

  /** `get_teams_for_player_by_player_id` of the team service: no rows give
      no history; with rows, a missing active season raises; otherwise the
      current team is the single candidate row when there is exactly one,
      and the previous teams are the former rows, absent when there are
      none. */
  function PlayerTeams(entries: seq<Rosters.Entry>, teams: map<Id, Rosters.TeamInfo>, player: Id,
                       activeSeason: Option<Id>)
    : (r: Result<Rosters.PlayerRosterHistory, TeamError>)
    ensures Rosters.PlayerRows(entries, teams, player) == [] ==> r == Ok(Rosters.PlayerRosterHistory(None, None))
    ensures r.Err? <==> Rosters.PlayerRows(entries, teams, player) != [] && activeSeason.None?
    ensures r.Ok? && activeSeason.Some? ==>
      var cs := Candidates(Rosters.PlayerRows(entries, teams, player), activeSeason.value, teams);
      (r.value.current.Some? <==> |cs| == 1)
      && (|cs| == 1 ==> r.value.current == Some(Rosters.HistoryOf(cs[0], teams)))
    ensures r.Ok? && r.value.previous.Some? ==> r.value.previous.value != []
  {
    var rows := Rosters.PlayerRows(entries, teams, player);
    if rows == [] then Ok(Rosters.PlayerRosterHistory(None, None))
    else if activeSeason.None? then Err(NoActiveSeason)
    else
      var cs := Candidates(rows, activeSeason.value, teams);
      var fs := Formers(rows, activeSeason.value, teams);
      Ok(Rosters.PlayerRosterHistory(
        if |cs| == 1 then Some(Rosters.HistoryOf(cs[0], teams)) else None,
        if fs == [] then None else Some(Rosters.Histories(fs, teams))))
  }

  /** Two complementary filters split a sequence. */
  lemma {:induction false} CountIfSplit<T>(s: seq<T>, p: T -> bool, q: T -> bool)
    requires forall k :: 0 <= k < |s| ==> q(s[k]) == !p(s[k])
    ensures CountIf(s, p) + CountIf(s, q) == |s|
  {
    if s != [] {
      CountIfSplit(s[1..], p, q);
    }
  }

  /** Every row of the player is a candidate for the current team or a
      former team, never both, so the candidates and the former rows
      together account for all of them. */
  lemma RowsPartitioned(entries: seq<Rosters.Entry>, teams: map<Id, Rosters.TeamInfo>, player: Id, season: Id)
    ensures var rows := Rosters.PlayerRows(entries, teams, player);
      && (forall e :: e in rows ==> (e in Candidates(rows, season, teams) <==> e !in Formers(rows, season, teams)))
      && |Candidates(rows, season, teams)| + |Formers(rows, season, teams)| == |rows|
  {
    var rows := Rosters.PlayerRows(entries, teams, player);
    var p := (e: Rosters.Entry) => e.teamId in teams && Candidate(e, season, teams);
    var q := (e: Rosters.Entry) => e.teamId in teams && Former(e, season, teams);
    assert forall k :: 0 <= k < |rows| ==> rows[k] in rows && rows[k].teamId in teams;
    CountIfSplit(rows, p, q);
  }

  // ---------------------------------------------------------------- changes

  /** Any record of the player for the team, whatever its status
      (`player_is_team_captain` of the team service). */
  predicate HasCaptainRecord(captains: seq<Captains.Captain>, team: Id, player: Id)
  {
    exists k :: 0 <= k < |captains| && Captains.RecordOf(captains[k], team, player)
  }

  /** The record `_create_captain_internal` adds. */
  function NewCaptain(id: Id, team: Id, player: Id, now: Time): Captains.Captain
  {
    Captains.Captain(id, team, player, CaptainActive, now, None, None, None)
  }

  /** `update_team` on one team: the name when given, the recruitment
      flag, the logo when a non-empty path is given, and the update time. */
  function Updated(t: Team, u: TeamUpdate, logoPath: Option<string>, now: Time): (r: Team)
    ensures r.id == t.id && r.status == t.status && r.createdAt == t.createdAt && r.updatedAt == now
    ensures r.name == (if u.name.Some? then u.name.value else t.name) && r.recruiting == u.recruiting
    ensures r.logo == (if logoPath.Some? && logoPath.value != "" then logoPath else t.logo)
    ensures r.(name := t.name, logo := t.logo, recruiting := t.recruiting, updatedAt := t.updatedAt) == t
  {
    var t1 := if u.name.Some? then t.(name := u.name.value) else t;
    var t2 := if logoPath.Some? && logoPath.value != "" then t1.(logo := logoPath) else t1;
    t2.(recruiting := u.recruiting, updatedAt := now)
  }

  /** Updating twice with the same data at the same time is updating once. */
  lemma UpdateIdempotent(t: Team, u: TeamUpdate, logoPath: Option<string>, now: Time)
    ensures Updated(Updated(t, u, logoPath, now), u, logoPath, now) == Updated(t, u, logoPath, now)
  {
  }

  /** `TeamService`: the team table, sharing the captain and roster tables
      with their services. */
  class TeamService {
    var teams: seq<Team>
    const captainService: Captains.CaptainService
    const rosterService: Rosters.RosterService

    constructor (captainService: Captains.CaptainService, rosterService: Rosters.RosterService)
      ensures teams == [] && this.captainService == captainService && this.rosterService == rosterService
    {
      teams := [];
      this.captainService := captainService;
      this.rosterService := rosterService;
    }

    /** `get_teams_for_player_by_player_id` over the shared tables. */
    function TeamsForPlayer(player: Id, activeSeason: Option<Id>): Result<Rosters.PlayerRosterHistory, TeamError>
      reads this, rosterService
    {
      PlayerTeams(rosterService.entries, TeamTable(teams), player, activeSeason)
    }

    /** `create_team`: the team with the fresh key `id`, then its first
        captain (refused when the player already has a record for it), then
        the captain's roster entry in the active season (raising without
        one); a refusal leaves all three tables as they were. */
    method CreateTeam(id: Id, captainId: Id, entryId: Id, name: string, captain: Id, logo: Option<string>,
                      activeSeason: Option<Id>, now: Time)
      returns (r: Result<Team, TeamError>)
      modifies this`teams, captainService`captains, rosterService`entries
      ensures HasCaptainRecord(old(captainService.captains), id, captain) ==> r == Err(AlreadyCaptain)
      ensures !HasCaptainRecord(old(captainService.captains), id, captain) && activeSeason.None? ==>
        r == Err(NoActiveSeason)
      ensures r.Err? ==> teams == old(teams) && captainService.captains == old(captainService.captains)
                         && rosterService.entries == old(rosterService.entries)
      ensures r.Ok? <==> !HasCaptainRecord(old(captainService.captains), id, captain) && activeSeason.Some?
      ensures r.Ok? ==>
        && r.value == Team(id, name, logo, TeamActive, now, now, false, None, None, None)
        && teams == old(teams) + [r.value]
        && captainService.captains == old(captainService.captains) + [NewCaptain(captainId, id, captain, now)]
        && rosterService.entries == old(rosterService.entries) +
             [Rosters.Entry(entryId, id, captain, activeSeason.value, RosterActive, now, None, None, None)]
    {
      if HasCaptainRecord(captainService.captains, id, captain) {
        return Err(AlreadyCaptain);
      }
      if activeSeason.None? {
        return Err(NoActiveSeason);
      }
      var team := Team(id, name, logo, TeamActive, now, now, false, None, None, None);
      teams := teams + [team];
      captainService.captains := captainService.captains + [NewCaptain(captainId, id, captain, now)];
      rosterService.entries := rosterService.entries +
        [Rosters.Entry(entryId, id, captain, activeSeason.value, RosterActive, now, None, None, None)];
      return Ok(team);
    }

    /** `create_captain` of the team service: refused when the player has
        any record for the team; otherwise a new record. */
    method CreateCaptain(captainId: Id, team: Id, player: Id, now: Time) returns (r: Result<Captains.Captain, TeamError>)
      modifies captainService`captains
      ensures HasCaptainRecord(old(captainService.captains), team, player) ==>
        r == Err(AlreadyCaptain) && captainService.captains == old(captainService.captains)
      ensures !HasCaptainRecord(old(captainService.captains), team, player) ==>
        r == Ok(NewCaptain(captainId, team, player, now)) && captainService.captains == old(captainService.captains) + [r.value]
      ensures Captains.UniqueRecords(old(captainService.captains)) ==> Captains.UniqueRecords(captainService.captains)
    {
      if HasCaptainRecord(captainService.captains, team, player) {
        return Err(AlreadyCaptain);
      }
      r := Ok(NewCaptain(captainId, team, player, now));
      captainService.captains := captainService.captains + [r.value];
    }

    /** `remove_captain` of the team service deletes the record at `i`. */
    method RemoveCaptain(i: nat)
      requires i < |captainService.captains|
      modifies captainService`captains
      ensures captainService.captains == old(captainService.captains)[..i] + old(captainService.captains)[i + 1..]
    {
      captainService.captains := captainService.captains[..i] + captainService.captains[i + 1..];
    }

    /** `update_team` on the team at `i`. */
    method UpdateTeam(i: nat, u: TeamUpdate, logoPath: Option<string>, now: Time) returns (r: Team)
      requires i < |teams|
      modifies this`teams
      ensures r == Updated(old(teams)[i], u, logoPath, now) && teams == old(teams)[i := r]
    {
      r := Updated(teams[i], u, logoPath, now);
      teams := teams[i := r];
    }

    /** `disband_team`: the team at `i` becomes DISBANDED with the time,
        reason and actor recorded, whatever its status was; the record is
        kept and nothing else changes. */
    method DisbandTeam(i: nat, reason: string, actor: Id, now: Time) returns (r: Team)
      requires i < |teams|
      modifies this`teams
      ensures r.status == TeamDisbanded && r.disbandedAt == Some(now) && r.disbandedReason == Some(reason)
              && r.disbandedBy == Some(actor)
      ensures r.(status := old(teams)[i].status, disbandedAt := old(teams)[i].disbandedAt,
                 disbandedReason := old(teams)[i].disbandedReason, disbandedBy := old(teams)[i].disbandedBy) == old(teams)[i]
      ensures teams == old(teams)[i := r]
    {
      r := teams[i].(status := TeamDisbanded, disbandedAt := Some(now), disbandedReason := Some(reason),
                     disbandedBy := Some(actor));
      teams := teams[i := r];
    }
  }
}
