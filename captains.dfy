/** The captain service: team-captain records, their status changes
    through the status-transition service's "TeamCaptain" manager, and the
    `team_captain` role a captain holds at the team's scope. A request
    refused by a guard or a rule leaves the records, the role assignments
    and the log as they were; the audit wrapper, which is not modelled, commits a
    change before it calls its details extractor (so a change whose
    extractor then raises persists), and nested audited calls commit
    separately. */
module Captains {
  import opened Common
  import opened Access
  import opened StatusChecks
  import opened StatusFramework
  import opened StatusRules

  /** A row of the team-captain table. */
  datatype Captain = Captain(id: Id, teamId: Id, playerId: Id, status: Status, createdAt: Time,
                             changeReason: Option<string>, changedAt: Option<Time>, changedBy: Option<Id>)

  /** The record as the transition service sees it: class `TeamCaptain`. */
  function Track(c: Captain): Tracked
  {
    Tracked("TeamCaptain", c.id, c.status, c.changeReason, c.changedAt, c.changedBy, Subject(c.playerId, c.teamId))
  }

  function Untrack(c: Captain, t: Tracked): Captain
  {
    c.(status := t.status, changeReason := t.changeReason, changedAt := t.changedAt, changedBy := t.changedBy)
  }

  datatype CaptainError =
    | AlreadyCaptain              // "Player is already a captain of this team"
    | NotCaptain                  // "Player is not a captain of this team"
    | NoCaptainRole               // no role named team_captain: `role.id` on None
    | RoleRemoval(access: AccessError)
    | Refused(failure: TransitionFailure)
    | StatusCallRejected          // a call with a keyword argument the callee does not take

  const CaptainRoleName := "team_captain"
  const ReactivationReason := "Captain reactivation"
  const RemovalReason := "Captain removed"

  // ---------------------------------------------------------------- queries

  predicate RecordOf(c: Captain, team: Id, player: Id)
  {
    c.teamId == team && c.playerId == player
  }

  /** The first record of the player for the team, whatever its status
      (`get_captain` and the lookup of `_create_captain_internal`). */
  function CaptainRecord(captains: seq<Captain>, team: Id, player: Id): Option<nat>
  {
    FirstWhere(captains, c => RecordOf(c, team, player))
  }

  /** `get_captain`. */
  function GetCaptain(captains: seq<Captain>, team: Id, player: Id): (r: Result<Captain, CaptainError>)
    ensures r.Err? <==> forall k :: 0 <= k < |captains| ==> !RecordOf(captains[k], team, player)
    ensures r.Ok? ==> r.value in captains && RecordOf(r.value, team, player)
  {
    match CaptainRecord(captains, team, player)
    case None => Err(NotCaptain)
    case Some(k) => Ok(captains[k])
  }

  /** No player has two records for one team. */
  predicate UniqueRecords(captains: seq<Captain>)
  {
    forall i, j :: 0 <= i < j < |captains| ==>
      captains[i].teamId != captains[j].teamId || captains[i].playerId != captains[j].playerId
  }

  /** `get_active_captains`: the team's ACTIVE records. */
  function ActiveCaptains(captains: seq<Captain>, team: Id): (r: seq<Captain>)
    ensures forall c :: c in r <==> c in captains && c.teamId == team && c.status == CaptainActive
  {
    Filter(captains, (c: Captain) => c.teamId == team && c.status == CaptainActive)
  }

  /** The players of the team's records in the given statuses, in table order. */
  function CaptainPlayers(captains: seq<Captain>, team: Id, statuses: set<Status>): (r: seq<Id>)
    ensures forall p :: p in r <==> exists k :: 0 <= k < |captains| && RecordOf(captains[k], team, p)
                                                && captains[k].status in statuses
    ensures |r| <= |captains|
  {
    if captains == [] then []
    else
      var rest := CaptainPlayers(captains[1..], team, statuses);
      assert forall p :: p in rest <==> exists k :: 1 <= k < |captains| && RecordOf(captains[k], team, p)
                                                   && captains[k].status in statuses by {
        forall p | p in rest ensures exists k :: 1 <= k < |captains| && RecordOf(captains[k], team, p)
                                                  && captains[k].status in statuses {
          var k :| 0 <= k < |captains[1..]| && RecordOf(captains[1..][k], team, p) && captains[1..][k].status in statuses;
          assert captains[k + 1] == captains[1..][k];
        }
        forall p, k | 1 <= k < |captains| && RecordOf(captains[k], team, p) && captains[k].status in statuses
          ensures p in rest {
          assert captains[1..][k - 1] == captains[k];
        }
      }
      if captains[0].teamId == team && captains[0].status in statuses then [captains[0].playerId] + rest else rest
  }

  /** `get_team_captains`: the players with an ACTIVE or TEMPORARY record
      (the team is named; team names are unique). */
  function TeamCaptains(captains: seq<Captain>, team: Id): seq<Id>
  {
    CaptainPlayers(captains, team, {CaptainActive, CaptainTemporary})
  }

  /** `get_team_captains_by_team_id`: PENDING records count as well. */
  function TeamCaptainsByTeamId(captains: seq<Captain>, team: Id): seq<Id>
  {
    CaptainPlayers(captains, team, {CaptainActive, CaptainTemporary, CaptainPending})
  }

  /** `player_is_team_captain`: an ACTIVE or TEMPORARY record exists. */
  predicate PlayerIsTeamCaptain(captains: seq<Captain>, team: Id, player: Id)
  {
    exists k :: 0 <= k < |captains| && RecordOf(captains[k], team, player)
                && captains[k].status in {CaptainActive, CaptainTemporary}
  }

  /** The membership test agrees with the listing, and the listing by team
      id contains every captain of the listing by name. */
  lemma CaptainQueriesAgree(captains: seq<Captain>, team: Id, player: Id)
    ensures PlayerIsTeamCaptain(captains, team, player) <==> player in TeamCaptains(captains, team)
    ensures player in TeamCaptains(captains, team) ==> player in TeamCaptainsByTeamId(captains, team)
  {
  }

  /** A REMOVED, DISBANDED or PENDING record does not make its player a
      captain. */
  lemma InactiveRecordNoCaptain(captains: seq<Captain>, team: Id, player: Id)
    requires forall k :: 0 <= k < |captains| && RecordOf(captains[k], team, player) ==>
      captains[k].status in {CaptainRemoved, CaptainDisbanded, CaptainPending}
    ensures !PlayerIsTeamCaptain(captains, team, player)
  {
  }

  // ---------------------------------------------------------------- changes

  /** The outcome of a status change of the record at position `i`, as
      for roster entries: a refusal changes nothing; success writes the
      status fields and logs the change. */
  predicate Changed(before: seq<Captain>, after: seq<Captain>, logBefore: seq<HistoryEntry>,
                    logAfter: seq<HistoryEntry>, i: nat, next: Status, reason: string, actor: Actor,
                    metadata: map<string, string>, now: Time, r: Result<Captain, CaptainError>)
    requires i < |before|
  {
    var a := Attempt(CaptainRules(), CaptainStatuses, Track(before[i]), next, reason, actor, false, now);
    if a.Err? then r == Err(Refused(a.error)) && after == before && logAfter == logBefore
    else
      && r == Ok(Untrack(before[i], a.value))
      && after == before[i := r.value]
      && logAfter == logBefore + [HistoryEntry("TeamCaptain", before[i].id, actor.id, before[i].status, next, reason,
                                               metadata, now)]
  }

  /** A captain status change succeeds exactly when the captain table has
      the move, the actor holds `manage_team` at global scope, the reason
      is not blank, and, except for a move to DISBANDED, the actor is a
      global team admin or captain of the record's team. */
  lemma CaptainAttempt(c: Captain, next: Status, reason: string, actor: Actor, now: Time)
    ensures Attempt(CaptainRules(), CaptainStatuses, Track(c), next, reason, actor, false, now).Ok? <==>
      && CaptainMove(c.status, next)
      && Verified(actor.grants, ["manage_team"], None)
      && !Blank(reason)
      && (next == CaptainDisbanded || GlobalTeamAdmin(actor) || TeamCaptainOf(actor, c.teamId))
  {
    CaptainPasses(c.status, next, ContextFor(Track(c), reason, actor, false));
  }

  /** Reactivating a REMOVED record is always refused: the captain table has
      no way out of REMOVED but DISBANDED. */
  lemma ReactivationRefused(c: Captain, reason: string, actor: Actor, now: Time)
    requires c.status == CaptainRemoved
    ensures Attempt(CaptainRules(), CaptainStatuses, Track(c), CaptainActive, reason, actor, false, now)
      == Err(NoMatchingRule)
  {
    CaptainRemovedStaysRemoved(CaptainActive, ContextFor(Track(c), reason, actor, false));
  }

  /** Only an ACTIVE record can be removed; a TEMPORARY or PENDING captain
      has to become ACTIVE first. */
  lemma RemovalOnlyFromActive(c: Captain, reason: string, actor: Actor, now: Time)
    requires c.status != CaptainActive
    ensures Attempt(CaptainRules(), CaptainStatuses, Track(c), CaptainRemoved, reason, actor, false, now)
      == Err(NoMatchingRule)
  {
    CaptainNoRule(c.status, CaptainRemoved, ContextFor(Track(c), reason, actor, false));
  }

  /** `change_captain_status` as written: it passes `transition_status` an
      `audit_context` keyword that the transition service does not take, so
      the call raises before any rule is consulted, whatever the record,
      the move and the actor. */
  function ChangeCaptainStatusAsWritten(c: Captain, next: Status, reason: string, actor: Actor): (r: Result<Captain, CaptainError>)
    ensures r.Err? && !r.error.Refused?
  {
    Err(StatusCallRejected)
  }

  /** A team manager disbanding an ACTIVE captain record: the captain rules
      accept the move, while the service as written refuses it. */
  lemma DisbandCaptainCounterexample()
    ensures var c := Captain(4, 2, 7, CaptainActive, 0, None, None, None);
      var manager := Actor(1, [Grant("manage_team", GlobalScope, None)]);
      && Attempt(CaptainRules(), CaptainStatuses, Track(c), CaptainDisbanded, "season over", manager, false, 0).Ok?
      && ChangeCaptainStatusAsWritten(c, CaptainDisbanded, "season over", manager) == Err(StatusCallRejected)
  {
    var c := Captain(4, 2, 7, CaptainActive, 0, None, None, None);
    var manager := Actor(1, [Grant("manage_team", GlobalScope, None)]);
    assert !IsSpace("season over"[0]);
    assert Covers(manager.grants[0], "manage_team", None);
    assert Held(manager.grants, "manage_team", None);
    CaptainAttempt(c, CaptainDisbanded, "season over", manager, 0);
  }

  /** `CaptainService`: the captain table, the role tables it grants the
      captain role in, and the transition service. */
  class CaptainService {
    const transitions: TransitionService
    const access: AccessStore
    var captains: seq<Captain>

    /** The transition service still holds the captain manager. */
    predicate Valid()
      reads transitions, transitions.managers.Values
    {
      && "TeamCaptain" in transitions.managers
      && transitions.managers["TeamCaptain"].rules == CaptainRules()
      && transitions.managers["TeamCaptain"].statuses == CaptainStatuses
      && transitions.managers["TeamCaptain"].entityType == "TeamCaptain"
    }

    /** The constructor registers the captain manager; the managers of the
        other entity types stay. */
    constructor (transitions: TransitionService, access: AccessStore)
      modifies transitions`managers
      ensures this.transitions == transitions && this.access == access && captains == [] && Valid()
      ensures transitions.managers.Keys == old(transitions.managers.Keys) + {"TeamCaptain"}
      ensures forall t :: t in old(transitions.managers) && t != "TeamCaptain" ==>
        transitions.managers[t] == old(transitions.managers)[t]
    {
      this.transitions := transitions;
      this.access := access;
      captains := [];
      new;
      var manager := InitializeCaptainManager();
      transitions.Register("TeamCaptain", manager);
    }

    /** `change_captain_status` on the record at position `i`. */
    method ChangeCaptainStatus(i: nat, next: Status, reason: string, actor: Actor, metadata: map<string, string>,
                               now: Time)
      returns (r: Result<Captain, CaptainError>)
      requires Valid() && i < |captains|
      modifies this`captains, transitions`history
      ensures Valid()
      ensures Changed(old(captains), captains, old(transitions.history), transitions.history, i, next, reason, actor,
                      metadata, now, r)
    {
      var t := transitions.TransitionStatus(Track(captains[i]), next, reason, actor, false, metadata, now);
      if t.Err? {
        return Err(Refused(t.error));
      }
      r := Ok(Untrack(captains[i], t.value));
      captains := captains[i := r.value];
    }

    /** `create_captain`: a record of the player for the team that is not
        REMOVED is refused; a REMOVED one is reused and its reactivation is
        always refused, so only a player without a record becomes captain:
        a new ACTIVE record with the fresh key `id`, and the `team_captain`
        role at the team's scope. */
    method CreateCaptain(id: Id, team: Id, player: Id, actor: Actor, isInitialCaptain: bool, now: Time)
      returns (r: Result<Captain, CaptainError>)
      requires Valid() && forall k :: 0 <= k < |captains| ==> captains[k].id != id
      modifies this`captains, access`playerRoles, transitions`history
      ensures Valid()
      ensures transitions.history == old(transitions.history)
      ensures CaptainRecord(old(captains), team, player).Some? ==>
        && captains == old(captains) && access.playerRoles == old(access.playerRoles)
        && (old(captains)[CaptainRecord(old(captains), team, player).value].status != CaptainRemoved ==>
              r == Err(AlreadyCaptain))
        && (old(captains)[CaptainRecord(old(captains), team, player).value].status == CaptainRemoved ==>
              r == (if RoleNamed(access.roles, CaptainRoleName).None? then Err(NoCaptainRole)
                    else Err(Refused(NoMatchingRule))))
      ensures CaptainRecord(old(captains), team, player).None? && RoleNamed(access.roles, CaptainRoleName).None? ==>
        r == Err(NoCaptainRole) && captains == old(captains) && access.playerRoles == old(access.playerRoles)
      ensures CaptainRecord(old(captains), team, player).None? && RoleNamed(access.roles, CaptainRoleName).Some? ==>
        && r == Ok(Captain(id, team, player, CaptainActive, now, None, None, None))
        && captains == old(captains) + [r.value]
        && access.playerRoles == old(access.playerRoles) +
             [PlayerRole(player, RoleNamed(access.roles, CaptainRoleName).value.id, TeamScope, Some(team))]
      ensures UniqueRecords(old(captains)) ==> UniqueRecords(captains)
    {
      var found := CaptainRecord(captains, team, player);
      if found.Some? && captains[found.value].status != CaptainRemoved {
        return Err(AlreadyCaptain);
      }
      var role := RoleNamed(access.roles, CaptainRoleName);
      if role.None? {
        return Err(NoCaptainRole);
      }
      if found.Some? {
        r := Reactivate(found.value, role.value.id, actor, isInitialCaptain, now);
        return;
      }
      var granted := access.AssignRole(player, role.value.id, TeamScope, Some(team));
      var c := Captain(id, team, player, CaptainActive, now, None, None, None);
      captains := captains + [c];
      r := Ok(c);
      assert forall k :: 0 <= k < |old(captains)| ==> !RecordOf(old(captains)[k], team, player);
    }

    /** The reactivation step of `create_captain` on the REMOVED record at
        position `k`: the role is granted, the move to ACTIVE is refused,
        and the transaction is rolled back. */
    method Reactivate(k: nat, role: Id, actor: Actor, isInitialCaptain: bool, now: Time)
      returns (r: Result<Captain, CaptainError>)
      requires Valid() && k < |captains| && captains[k].status == CaptainRemoved
      modifies access`playerRoles, transitions`history
      ensures r == Err(Refused(NoMatchingRule))
      ensures access.playerRoles == old(access.playerRoles) && transitions.history == old(transitions.history)
    {
      var c := captains[k];
      var rolesBefore := access.playerRoles;
      var granted := access.AssignRole(c.playerId, role, TeamScope, Some(c.teamId));
      ReactivationRefused(c, ReactivationReason, actor, now);
      var t := transitions.TransitionStatus(Track(c), CaptainActive, ReactivationReason, actor, false,
                                            map["is_initial_captain" := if isInitialCaptain then "True" else "False"], now);
      access.playerRoles := rolesBefore;
      return Err(Refused(t.error));
    }

    /** `remove_captain`: the `team_captain` role at the team's scope is
        taken away, then the record moves to REMOVED and is kept; a refusal
        at either step changes nothing. */
    method RemoveCaptain(i: nat, actor: Actor, reason: string, now: Time)
      returns (r: Result<Captain, CaptainError>)
      requires Valid() && i < |captains|
      modifies this`captains, access`playerRoles, transitions`history
      ensures Valid()
      ensures r.Err? ==> captains == old(captains) && access.playerRoles == old(access.playerRoles)
                         && transitions.history == old(transitions.history)
      ensures RoleNamed(access.roles, CaptainRoleName).None? ==> r == Err(NoCaptainRole)
      ensures RoleNamed(access.roles, CaptainRoleName).Some? ==>
        var role := RoleNamed(access.roles, CaptainRoleName).value.id;
        var c := old(captains)[i];
        var n := |Matching(old(access.playerRoles), c.playerId, role, TeamScope, Some(c.teamId))|;
        && (n == 0 ==> r == Err(RoleRemoval(NoSuchAssignment)))
        && (n > 1 ==> r == Err(RoleRemoval(AmbiguousRemoval)))
        && (n == 1 ==>
              && Changed(old(captains), captains, old(transitions.history), transitions.history, i, CaptainRemoved,
                         reason, actor, map[], now, r)
              && (r.Ok? ==> access.playerRoles == Unmatched(old(access.playerRoles), c.playerId, role, TeamScope,
                                                             Some(c.teamId))))
    {
      var role := RoleNamed(access.roles, CaptainRoleName);
      if role.None? {
        return Err(NoCaptainRole);
      }
      var c := captains[i];
      var rolesBefore := access.playerRoles;
      var removed := access.RemoveRoleFromPlayer(c.playerId, role.value.id, TeamScope, Some(c.teamId));
      if removed.Fail? {
        return Err(RoleRemoval(removed.error));
      }
      r := ChangeCaptainStatus(i, CaptainRemoved, reason, actor, map[], now);
      if r.Err? {
        access.playerRoles := rolesBefore;
      }
    }
  }
}
