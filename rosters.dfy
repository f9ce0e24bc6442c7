/** The roster service: which player plays for which team in which season.
    A roster entry's status changes only through the status-transition
    service's "Roster" manager, so every change is validated by the roster
    rule table and logged; the queries become functions over the roster
    table. A change refused by a guard or a rule leaves the table and the
    log as they were; the audit wrapper, which is not modelled, commits a
    change before it calls its details extractor (so a change whose
    extractor then raises persists), and nested audited calls commit
    separately. */
module Rosters {
  import opened Common
  import opened StatusChecks
  import opened StatusFramework
  import opened StatusRules

  /** A row of the roster table. */
  datatype Entry = Entry(id: Id, teamId: Id, playerId: Id, seasonId: Id, status: Status, createdAt: Time,
                         changeReason: Option<string>, changedAt: Option<Time>, changedBy: Option<Id>)

  /** The entry as the transition service sees it: class `Roster`, the
      validators reading its player and team. */
  function Track(e: Entry): Tracked
  {
    Tracked("Roster", e.id, e.status, e.changeReason, e.changedAt, e.changedBy, Subject(e.playerId, e.teamId))
  }

  /** The entry with the status fields the transition service wrote. */
  function Untrack(e: Entry, t: Tracked): Entry
  {
    e.(status := t.status, changeReason := t.changeReason, changedAt := t.changedAt, changedBy := t.changedBy)
  }

  datatype RosterError =
    | AlreadyOnTeam          // "Player is already on a team this season"
    | NotOnRoster            // "Player not found on team roster"
    | NoActiveSeason         // `current_season.id` on a missing season
    | Refused(failure: TransitionFailure)
    | StatusCallRejected     // a call with a keyword argument the callee does not take

  // ---------------------------------------------------------------- queries

  /** The filter of `get_team_roster`: a non-empty status list selects those
      statuses; without one, `include_all` selects every status and
      otherwise only ACTIVE. */
  predicate Listed(e: Entry, team: Id, season: Id, statuses: seq<Status>, includeAll: bool)
  {
    && e.teamId == team && e.seasonId == season
    && (if |statuses| > 0 then e.status in statuses else includeAll || e.status == RosterActive)
  }

  /** `get_team_roster`. */
  function TeamRoster(entries: seq<Entry>, team: Id, season: Id, statuses: seq<Status>, includeAll: bool)
    : (r: seq<Entry>)
    ensures forall e :: e in r <==> e in entries && Listed(e, team, season, statuses, includeAll)
  {
    Filter(entries, e => Listed(e, team, season, statuses, includeAll))
  }

  /** `get_suspended_players`. */
  function SuspendedPlayers(entries: seq<Entry>, team: Id, season: Id): seq<Entry>
  {
    TeamRoster(entries, team, season, [RosterSuspended], false)
  }

  /** `get_pending_players`. */
  function PendingPlayers(entries: seq<Entry>, team: Id, season: Id): seq<Entry>
  {
    TeamRoster(entries, team, season, [RosterPending], false)
  }

  predicate ActiveOn(e: Entry, team: Id, season: Id)
  {
    e.teamId == team && e.seasonId == season && e.status == RosterActive
  }

  /** `get_active_roster_count`: as many as the default roster listing has
      entries; zero exactly when the team has no ACTIVE entry that season. */
  function ActiveCount(entries: seq<Entry>, team: Id, season: Id): (n: nat)
    ensures n == |TeamRoster(entries, team, season, [], false)|
    ensures n == 0 <==> forall k :: 0 <= k < |entries| ==> !ActiveOn(entries[k], team, season)
  {
    CountIfSame(entries, e => ActiveOn(e, team, season), e => Listed(e, team, season, [], false));
    CountIf(entries, e => ActiveOn(e, team, season))
  }

  /** What `validate_roster_size` reports; the minimum is checked first. */
  datatype SizeVerdict = SizeValid | BelowMinimum(size: nat, min: int) | AboveMaximum(size: nat, max: int)

  /** `validate_roster_size`. */
  function ValidateRosterSize(entries: seq<Entry>, team: Id, season: Id, min: int, max: int): (r: SizeVerdict)
    ensures r == SizeValid <==> min <= ActiveCount(entries, team, season) <= max
    ensures ActiveCount(entries, team, season) < min ==> r == BelowMinimum(ActiveCount(entries, team, season), min)
    ensures r.AboveMaximum? ==> ActiveCount(entries, team, season) > max
  {
    var n := ActiveCount(entries, team, season);
    if n < min then BelowMinimum(n, min)
    else if n > max then AboveMaximum(n, max)
    else SizeValid
  }

  /** `get_teams_with_min_players`: the teams with an ACTIVE entry in the
      season (the query joins teams to roster rows) and at least `min`
      ACTIVE entries. */
  function TeamsWithMinPlayers(entries: seq<Entry>, season: Id, min: int): (r: set<Id>)
    ensures forall t :: t in r <==> ActiveCount(entries, t, season) > 0 && ActiveCount(entries, t, season) >= min
  {
    var r := set k | 0 <= k < |entries| && ActiveOn(entries[k], entries[k].teamId, season)
                     && ActiveCount(entries, entries[k].teamId, season) >= min :: entries[k].teamId;
    assert forall t :: ActiveCount(entries, t, season) > 0 && ActiveCount(entries, t, season) >= min ==> t in r by {
      forall t | ActiveCount(entries, t, season) > 0 && ActiveCount(entries, t, season) >= min ensures t in r {
        var k :| 0 <= k < |entries| && ActiveOn(entries[k], t, season);
      }
    }
    r
  }

  /** The filter of `_get_player_roster`. */
  predicate PlayerEntryMatches(e: Entry, player: Id, season: Id, team: Option<Id>, includeInactive: bool)
  {
    && e.playerId == player && e.seasonId == season
    && (team.None? || e.teamId == team.value)
    && (includeInactive || e.status == RosterActive)
  }

  /** `_get_player_roster`: the position of the first matching entry. */
  function PlayerEntry(entries: seq<Entry>, player: Id, season: Id, team: Option<Id>, includeInactive: bool)
    : Option<nat>
  {
    FirstWhere(entries, e => PlayerEntryMatches(e, player, season, team, includeInactive))
  }

  /** No player has two ACTIVE entries in one season. */
  predicate OneActivePerSeason(entries: seq<Entry>)
  {
    forall i, j :: 0 <= i < j < |entries| && entries[i].status == RosterActive && entries[j].status == RosterActive ==>
      entries[i].playerId != entries[j].playerId || entries[i].seasonId != entries[j].seasonId
  }

  // ---------------------------------------------------------------- history

  /** The team a roster row joins to. */
  datatype TeamInfo = TeamInfo(name: string, status: Status)

  /** `TeamHistory`. */
  datatype TeamHistory = TeamHistory(teamId: Id, name: string, seasonId: Id, since: Time, status: Status)

  /** `PlayerRosterHistory`. */
  datatype PlayerRosterHistory = PlayerRosterHistory(current: Option<TeamHistory>, previous: Option<seq<TeamHistory>>)

  /** The rows the history query returns: the player's entries whose team
      exists, in table order. */
  function PlayerRows(entries: seq<Entry>, teams: map<Id, TeamInfo>, player: Id): (r: seq<Entry>)
    ensures forall e :: e in r <==> e in entries && e.playerId == player && e.teamId in teams
  {
    Filter(entries, (e: Entry) => e.playerId == player && e.teamId in teams)
  }

  /** A row that can be the current team: ACTIVE, in the active season, on
      an ACTIVE team. */
  predicate CurrentRow(e: Entry, season: Id, teams: map<Id, TeamInfo>)
  {
    e.seasonId == season && e.status == RosterActive && e.teamId in teams && teams[e.teamId].status == TeamActive
  }

  /** A row that belongs to the past: another season, a REMOVED or PAST
      entry, or a team that is not ACTIVE. */
  predicate PastRow(e: Entry, season: Id, teams: map<Id, TeamInfo>)
    requires e.teamId in teams
  {
    e.seasonId != season || e.status in {RosterRemoved, RosterPast} || teams[e.teamId].status != TeamActive
  }

  /** The current entry: the first current row. */
  function CurrentEntry(rows: seq<Entry>, season: Id, teams: map<Id, TeamInfo>): (r: Option<Entry>)
    ensures r.Some? ==> r.value in rows && CurrentRow(r.value, season, teams)
    ensures r.None? <==> forall e :: e in rows ==> !CurrentRow(e, season, teams)
  {
    match FirstWhere(rows, e => CurrentRow(e, season, teams))
    case None => None
    case Some(k) => Some(rows[k])
  }

  /** The previous entries: the past rows other than the current one. */
  function PreviousEntries(rows: seq<Entry>, season: Id, teams: map<Id, TeamInfo>): (r: seq<Entry>)
    requires forall e :: e in rows ==> e.teamId in teams
    ensures forall e :: e in r <==> e in rows && PastRow(e, season, teams) && Some(e) != CurrentEntry(rows, season, teams)
    ensures forall e :: e in r ==> e.teamId in teams
  {
    var current := CurrentEntry(rows, season, teams);
    Filter(rows, (e: Entry) => e.teamId in teams && PastRow(e, season, teams) && Some(e) != current)
  }

  function HistoryOf(e: Entry, teams: map<Id, TeamInfo>): TeamHistory
    requires e.teamId in teams
  {
    TeamHistory(e.teamId, teams[e.teamId].name, e.seasonId, e.createdAt, teams[e.teamId].status)
  }

  /** The history records of entries, in order. */
  function Histories(es: seq<Entry>, teams: map<Id, TeamInfo>): (r: seq<TeamHistory>)
    requires forall e :: e in es ==> e.teamId in teams
    ensures |r| == |es| && forall k :: 0 <= k < |es| ==> r[k] == HistoryOf(es[k], teams)
  {
    if es == [] then [] else [HistoryOf(es[0], teams)] + Histories(es[1..], teams)
  }

  /** `get_teams_for_player_by_player_id`: no rows give no history; with
      rows, a missing active season raises; otherwise the current entry
      and the previous entries, the latter absent rather than empty. */
  function RosterHistory(entries: seq<Entry>, teams: map<Id, TeamInfo>, player: Id, activeSeason: Option<Id>)
    : (r: Result<PlayerRosterHistory, RosterError>)
    ensures PlayerRows(entries, teams, player) == [] ==> r == Ok(PlayerRosterHistory(None, None))
    ensures r.Err? <==> PlayerRows(entries, teams, player) != [] && activeSeason.None?
    ensures r.Ok? && r.value.previous.Some? ==> r.value.previous.value != []
    ensures r.Ok? && activeSeason.Some? ==>
      (r.value.current.Some? <==> CurrentEntry(PlayerRows(entries, teams, player), activeSeason.value, teams).Some?)
  {
    var rows := PlayerRows(entries, teams, player);
    if rows == [] then Ok(PlayerRosterHistory(None, None))
    else if activeSeason.None? then Err(NoActiveSeason)
    else
      var current := CurrentEntry(rows, activeSeason.value, teams);
      var prev := PreviousEntries(rows, activeSeason.value, teams);
      Ok(PlayerRosterHistory(
        if current.Some? then Some(HistoryOf(current.value, teams)) else None,
        if prev == [] then None else Some(Histories(prev, teams))))
  }

  /** The current entry is never also listed as previous, and every past row
      but the current one is. */
  lemma CurrentNotPrevious(entries: seq<Entry>, teams: map<Id, TeamInfo>, player: Id, season: Id)
    ensures var rows := PlayerRows(entries, teams, player);
      var c := CurrentEntry(rows, season, teams);
      && (c.Some? ==> c.value !in PreviousEntries(rows, season, teams))
      && (forall e :: e in rows && PastRow(e, season, teams) && Some(e) != c ==> e in PreviousEntries(rows, season, teams))
  {
  }

  /** An entry in the active season on an ACTIVE team that is PENDING or
      SUSPENDED, or ACTIVE but not the first such row, is neither the
      current team nor a previous one. */
  lemma HistoryOmits(entries: seq<Entry>, teams: map<Id, TeamInfo>, player: Id, season: Id, e: Entry)
    requires e in PlayerRows(entries, teams, player)
    requires e.seasonId == season && teams[e.teamId].status == TeamActive
    requires e.status in {RosterPending, RosterSuspended, RosterActive}
    requires Some(e) != CurrentEntry(PlayerRows(entries, teams, player), season, teams)
    ensures e !in PreviousEntries(PlayerRows(entries, teams, player), season, teams)
  {
  }

  // ---------------------------------------------------------------- changes

  /** The outcome of a status change of the entry at position `i`: the
      transition service's verdict on the roster rules decides; a refusal
      changes nothing, and success writes the entry's status fields and
      logs the change. */
  predicate Changed(before: seq<Entry>, after: seq<Entry>, logBefore: seq<HistoryEntry>, logAfter: seq<HistoryEntry>,
                    i: nat, next: Status, reason: string, actor: Actor, metadata: map<string, string>, now: Time,
                    r: Result<Entry, RosterError>)
    requires i < |before|
  {
    var a := Attempt(RosterRules(), RosterStatuses, Track(before[i]), next, reason, actor, false, now);
    if a.Err? then r == Err(Refused(a.error)) && after == before && logAfter == logBefore
    else
      && r == Ok(Untrack(before[i], a.value))
      && after == before[i := r.value]
      && logAfter == logBefore + [HistoryEntry("Roster", before[i].id, actor.id, before[i].status, next, reason, metadata, now)]
  }

  /** A roster status change succeeds exactly when the roster table has
      the move, the reason is not blank, and the actor may make it: a
      global team admin any move; the entry's own player only ACTIVE to
      REMOVED; a captain of the entry's team, being another player, the
      moves of the captain table. A success writes the new status with its
      reason, time and actor. */
  lemma RosterAttempt(e: Entry, next: Status, reason: string, actor: Actor, now: Time)
    ensures var a := Attempt(RosterRules(), RosterStatuses, Track(e), next, reason, actor, false, now);
      && (a.Ok? <==> RosterMove(e.status, next) && !Blank(reason)
                     && RosterActorMay(e.status, next, Context(actor, reason, Subject(e.playerId, e.teamId), None, false, true)))
      && (a.Ok? ==> Untrack(e, a.value) == e.(status := next, changeReason := Some(reason), changedAt := Some(now),
                                                changedBy := Some(actor.id)))
  {
    RosterPasses(e.status, next, ContextFor(Track(e), reason, actor, false));
  }

  const AddReason := "Initial roster addition"
  const RemoveReason := "Removed from roster"

  /** The entry `add_player_to_roster` creates before it is activated. */
  function NewEntry(id: Id, team: Id, player: Id, season: Id, now: Time): Entry
  {
    Entry(id, team, player, season, RosterPending, now, None, None, None)
  }

  /** The metadata logged with an addition: the action and the season,
      overridden by the caller's details. */
  function AddMetadata(season: Id, details: map<string, string>): map<string, string>
  {
    map["action" := "roster_add", "season_id" := IdText(season)] + details
  }

  /** Adding a player passes exactly for a global team admin or a captain
      of the team who is not the added player: players cannot put
      themselves on a roster. */
  lemma AddAuthority(id: Id, team: Id, player: Id, season: Id, actor: Actor, now: Time)
    ensures Attempt(RosterRules(), RosterStatuses, Track(NewEntry(id, team, player, season, now)), RosterActive,
                    AddReason, actor, false, now).Ok?
      <==> GlobalTeamAdmin(actor) || (actor.id != player && TeamCaptainOf(actor, team))
  {
    assert !Blank(AddReason) by {
      assert !IsSpace(AddReason[0]);
    }
    RosterAttempt(NewEntry(id, team, player, season, now), RosterActive, AddReason, actor, now);
  }

  /** Removing an ACTIVE entry passes exactly when the reason is not blank
      and the actor is a global team admin, the entry's player (leaving the
      team), or a captain of the entry's team. */
  lemma RemoveAuthority(e: Entry, reason: string, actor: Actor, now: Time)
    requires e.status == RosterActive
    ensures Attempt(RosterRules(), RosterStatuses, Track(e), RosterRemoved, reason, actor, false, now).Ok?
      <==> !Blank(reason) && (GlobalTeamAdmin(actor) || actor.id == e.playerId || TeamCaptainOf(actor, e.teamId))
  {
    RosterAttempt(e, RosterRemoved, reason, actor, now);
  }

  /** A player cannot suspend or reactivate their own entry unless they
      are a global team admin. */
  lemma NoSelfSuspension(e: Entry, next: Status, reason: string, actor: Actor, now: Time)
    requires next in {RosterSuspended, RosterActive} && actor.id == e.playerId && !GlobalTeamAdmin(actor)
    ensures Attempt(RosterRules(), RosterStatuses, Track(e), next, reason, actor, false, now).Err?
  {
    RosterAttempt(e, next, reason, actor, now);
  }

  /** `change_roster_status` as written: it passes `transition_status` an
      `audit_context` keyword that the transition service does not take, so
      the call raises before any rule is consulted, whatever the entry, the
      move and the actor. */
  function ChangeRosterStatusAsWritten(e: Entry, next: Status, reason: string, actor: Actor): (r: Result<Entry, RosterError>)
    ensures r.Err? && !r.error.Refused?
  {
    Err(StatusCallRejected)
  }

  /** A player leaving their own team: the roster rules accept the move,
      while the service as written refuses it. */
  lemma LeaveTeamCounterexample()
    ensures var e := Entry(5, 2, 7, 1, RosterActive, 0, None, None, None);
      && Attempt(RosterRules(), RosterStatuses, Track(e), RosterRemoved, "leaving", Actor(7, []), false, 0).Ok?
      && ChangeRosterStatusAsWritten(e, RosterRemoved, "leaving", Actor(7, [])) == Err(StatusCallRejected)
  {
    var e := Entry(5, 2, 7, 1, RosterActive, 0, None, None, None);
    assert !IsSpace("leaving"[0]);
    RemoveAuthority(e, "leaving", Actor(7, []), 0);
  }

  /** `RosterService`: the roster table and the transition service whose
      "Roster" manager validates its status changes. */
  class RosterService {
    const transitions: TransitionService
    var entries: seq<Entry>

    /** The transition service still holds the roster manager. */
    predicate Valid()
      reads transitions, transitions.managers.Values
    {
      && "Roster" in transitions.managers
      && transitions.managers["Roster"].rules == RosterRules()
      && transitions.managers["Roster"].statuses == RosterStatuses
      && transitions.managers["Roster"].entityType == "Roster"
    }

    /** The constructor registers the roster manager; the managers of the
        other entity types stay. */
    constructor (transitions: TransitionService)
      modifies transitions`managers
      ensures this.transitions == transitions && entries == [] && Valid()
      ensures transitions.managers.Keys == old(transitions.managers.Keys) + {"Roster"}
      ensures forall t :: t in old(transitions.managers) && t != "Roster" ==>
        transitions.managers[t] == old(transitions.managers)[t]
    {
      this.transitions := transitions;
      entries := [];
      new;
      var manager := InitializeRosterManager();
      transitions.Register("Roster", manager);
    }

    /** `change_roster_status` on the entry at position `i`. */
    method ChangeRosterStatus(i: nat, next: Status, reason: string, actor: Actor, metadata: map<string, string>,
                              now: Time)
      returns (r: Result<Entry, RosterError>)
      requires Valid() && i < |entries|
      modifies this`entries, transitions`history
      ensures Valid()
      ensures Changed(old(entries), entries, old(transitions.history), transitions.history, i, next, reason, actor,
                      metadata, now, r)
    {
      var t := transitions.TransitionStatus(Track(entries[i]), next, reason, actor, false, metadata, now);
      if t.Err? {
        return Err(Refused(t.error));
      }
      r := Ok(Untrack(entries[i], t.value));
      entries := entries[i := r.value];
    }

    /** `add_player_to_roster`: a player ACTIVE on any team that season is
        refused; otherwise a PENDING entry with the fresh key `id` is
        created and moved to ACTIVE, and a refused move removes it again.
        No player ever holds two ACTIVE entries in a season through it. */
    method AddPlayerToRoster(id: Id, team: Id, player: Id, season: Id, actor: Actor, details: map<string, string>,
                             now: Time)
      returns (r: Result<Entry, RosterError>)
      requires Valid() && forall k :: 0 <= k < |entries| ==> entries[k].id != id
      modifies this`entries, transitions`history
      ensures Valid()
      ensures PlayerEntry(old(entries), player, season, None, false).Some? ==>
        r == Err(AlreadyOnTeam) && entries == old(entries) && transitions.history == old(transitions.history)
      ensures PlayerEntry(old(entries), player, season, None, false).None? ==>
        var pending := NewEntry(id, team, player, season, now);
        var a := Attempt(RosterRules(), RosterStatuses, Track(pending), RosterActive, AddReason, actor, false, now);
        && (a.Err? ==> r == Err(Refused(a.error)) && entries == old(entries)
                       && transitions.history == old(transitions.history))
        && (a.Ok? ==> r == Ok(Untrack(pending, a.value)) && entries == old(entries) + [r.value]
                      && transitions.history == old(transitions.history) +
                           [HistoryEntry("Roster", id, actor.id, RosterPending, RosterActive, AddReason,
                                         AddMetadata(season, details), now)])
      ensures OneActivePerSeason(old(entries)) ==> OneActivePerSeason(entries)
    {
      if PlayerEntry(entries, player, season, None, false).Some? {
        return Err(AlreadyOnTeam);
      }
      var before := entries;
      var pending := NewEntry(id, team, player, season, now);
      entries := entries + [pending];
      r := ChangeRosterStatus(|before|, RosterActive, AddReason, actor, AddMetadata(season, details), now);
      if r.Err? {
        entries := before;
      } else {
        assert entries == before + [r.value];
      }
      assert OneActivePerSeason(old(entries)) ==> OneActivePerSeason(entries) by {
        if OneActivePerSeason(old(entries)) && r.Ok? {
          forall j | 0 <= j < |before| && before[j].status == RosterActive
            ensures before[j].playerId != player || before[j].seasonId != season
          {
            assert !PlayerEntryMatches(before[j], player, season, None, false);
          }
        }
      }
    }

    /** `remove_player_from_team_roster`: without an ACTIVE entry of the
        player on that team that season nothing changes; otherwise that
        entry is moved to REMOVED and kept. */
    method RemovePlayerFromTeamRoster(team: Id, player: Id, season: Id, actor: Actor, reason: string, now: Time)
      returns (r: Outcome<RosterError>)
      requires Valid()
      modifies this`entries, transitions`history
      ensures Valid()
      ensures PlayerEntry(old(entries), player, season, Some(team), false).None? ==>
        r == Fail(NotOnRoster) && entries == old(entries) && transitions.history == old(transitions.history)
      ensures PlayerEntry(old(entries), player, season, Some(team), false).Some? ==>
        var i := PlayerEntry(old(entries), player, season, Some(team), false).value;
        exists c :: Changed(old(entries), entries, old(transitions.history), transitions.history, i, RosterRemoved,
                            reason, actor, map["action" := "roster_remove"], now, c)
                    && (r == Pass <==> c.Ok?)
      ensures OneActivePerSeason(old(entries)) ==> OneActivePerSeason(entries)
    {
      var found := PlayerEntry(entries, player, season, Some(team), false);
      if found.None? {
        return Fail(NotOnRoster);
      }
      var c := ChangeRosterStatus(found.value, RosterRemoved, reason, actor, map["action" := "roster_remove"], now);
      r := if c.Ok? then Pass else Fail(c.error);
    }

    /** `suspend_roster_member`: the caller's metadata may override the
        logged action. */
    method SuspendRosterMember(i: nat, reason: string, actor: Actor, metadata: map<string, string>, now: Time)
      returns (r: Result<Entry, RosterError>)
      requires Valid() && i < |entries|
      modifies this`entries, transitions`history
      ensures Valid()
      ensures Changed(old(entries), entries, old(transitions.history), transitions.history, i, RosterSuspended, reason,
                      actor, map["action" := "roster_suspend"] + metadata, now, r)
      ensures OneActivePerSeason(old(entries)) ==> OneActivePerSeason(entries)
    {
      r := ChangeRosterStatus(i, RosterSuspended, reason, actor, map["action" := "roster_suspend"] + metadata, now);
    }

    /** `reactivate_roster_member`. */
    method ReactivateRosterMember(i: nat, reason: string, actor: Actor, metadata: map<string, string>, now: Time)
      returns (r: Result<Entry, RosterError>)
      requires Valid() && i < |entries|
      modifies this`entries, transitions`history
      ensures Valid()
      ensures Changed(old(entries), entries, old(transitions.history), transitions.history, i, RosterActive, reason,
                      actor, map["action" := "roster_reactivate"] + metadata, now, r)
    {
      r := ChangeRosterStatus(i, RosterActive, reason, actor, map["action" := "roster_reactivate"] + metadata, now);
    }

    /** `get_roster_status_history`: the logged changes of one entry,
        newest first, without metadata. */
    function RosterStatusHistory(id: Id): seq<HistoryView>
      reads transitions
    {
      StatusHistory(transitions.history, "Roster", id, false)
    }
  }
}
