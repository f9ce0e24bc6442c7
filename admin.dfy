/** The admin service: verifying players, banning them and revoking bans,
    and assigning roles. Player status changes go through the
    status-transition service's "Player" manager, so each is validated by
    the player rule table and logged. A request refused by a guard or a
    rule changes nothing; the audit wrapper, which is not modelled, commits a
    change before it calls its details extractor (so a change whose
    extractor then raises persists), and nested audited calls commit
    separately. */
module Admin {
  import opened Common
  import opened Access
  import opened StatusChecks
  import opened StatusFramework
  import opened StatusRules

  /** The status part of a row of the players table, and the evidence a
      player submitted for verification. */
  datatype PlayerRow = PlayerRow(id: Id, status: Status, changeReason: Option<string>, changedAt: Option<Time>,
                                 changedBy: Option<Id>, verificationEvidence: Option<string>)

  /** The player as the transition service sees it. A player belongs to no
      team; the validators of the player rules read neither field of the
      subject. */
  function Track(p: PlayerRow): Tracked
  {
    Tracked("Player", p.id, p.status, p.changeReason, p.changedAt, p.changedBy, Subject(p.id, 0))
  }

  /** The player with the status fields the transition service wrote. */
  function Untrack(p: PlayerRow, t: Tracked): PlayerRow
  {
    p.(status := t.status, changeReason := t.changeReason, changedAt := t.changedAt, changedBy := t.changedBy)
  }

  datatype BanScope = MatchBan | TournamentBan | SeasonBan | PermanentBan

  /** The text of a ban scope. */
  function ScopeText(s: BanScope): string
  {
    match s
    case MatchBan => "match"
    case TournamentBan => "tournament"
    case SeasonBan => "season"
    case PermanentBan => "permanent"
  }

  datatype BanStatus = BanActive | BanExpired | BanAppealed | BanRevoked

  /** A row of the bans table; the service only creates player bans. */
  datatype Ban = Ban(id: Id, playerId: Id, scope: BanScope, scopeId: Option<Id>, reason: string,
                     evidence: Option<string>, status: BanStatus, startDate: Time, endDate: Option<Time>,
                     issuedBy: Id, revokedBy: Option<Id>, revokeReason: Option<string>)

  /** `BanCreate`; its schema demands a scope id for every scope but
      PERMANENT. The end date travels with its ISO text. */
  datatype BanRequest = BanRequest(scope: BanScope, scopeId: Option<Id>, reason: string, evidence: Option<string>,
                                   endDate: Option<Time>, endDateText: Option<string>)

  predicate WellFormedRequest(data: BanRequest)
  {
    data.scope != PermanentBan ==> data.scopeId.Some?
  }

  datatype AdminError =
    | PlayerNotFound          // "Player not found", or the status service's ValueError
    | BanNotFound             // "Ban not found"
    | BanNotActive            // "Ban is not active"
    | NoSuchRole            // "Role not found"
    | Refused(failure: TransitionFailure)
    | RoleRefused(error: AccessError)
    | StatusCallRejected      // a call with a keyword argument the callee does not take

  // ---------------------------------------------------------------- bans

  /** `get_player_bans`: the player's bans, only the ACTIVE ones unless the
      inactive ones are asked for (the creation-time order is not kept). */
  function PlayerBans(bans: map<Id, Ban>, player: Id, includeInactive: bool): (r: set<Id>)
    ensures forall b :: b in r <==> b in bans && bans[b].playerId == player
                                     && (includeInactive || bans[b].status == BanActive)
  {
    set b | b in bans && bans[b].playerId == player && (includeInactive || bans[b].status == BanActive)
  }

  /** The ban `ban_player` creates: ACTIVE from now, issued by the actor. */
  function NewBan(id: Id, player: Id, data: BanRequest, actor: Id, now: Time): Ban
  {
    Ban(id, player, data.scope, data.scopeId, data.reason, data.evidence, BanActive, now, data.endDate, actor,
        None, None)
  }

  /** The metadata logged with a ban; a missing end date is left out of the
      map rather than stored as a null. */
  function BanMetadata(id: Id, data: BanRequest): map<string, string>
  {
    map["ban_id" := IdText(id), "ban_scope" := ScopeText(data.scope)]
      + if data.endDateText.Some? then map["ban_end_date" := data.endDateText.value] else map[]
  }

  /** The reason logged when the last active ban of a player is revoked. */
  function RevokeReason(id: Id, reason: string): string
  {
    "Ban " + IdText(id) + " revoked: " + reason
  }

  /** The metadata logged with a verification: date, verifier and notes,
      and the evidence when the player submitted any. Missing notes are
      left out of the map. */
  function VerifyMetadata(p: PlayerRow, notes: Option<string>, dateText: string, actor: Id): map<string, string>
  {
    map["verification_date" := dateText, "verified_by" := IdText(actor)]
      + (if notes.Some? then map["verification_notes" := notes.value] else map[])
      + (if p.verificationEvidence.Some? then map["verification_evidence" := p.verificationEvidence.value] else map[])
  }

  /** A missing reason reaches the validators as an empty one. */
  function ReasonText(notes: Option<string>): string
  {
    if notes.Some? then notes.value else ""
  }

  // ---------------------------------------------------------------- decisions

  /** A player status change succeeds exactly when the player table has the
      move, the actor holds its permission at global scope and the reason
      is not blank; a success writes the new status with its reason, time
      and actor. */
  lemma PlayerAttempt(p: PlayerRow, next: Status, reason: string, actor: Actor, now: Time)
    requires next in PlayerStatuses
    ensures var a := Attempt(PlayerRules(), PlayerStatuses, Track(p), next, reason, actor, false, now);
      && (a.Ok? <==> PlayerMovePermission(p.status, next).Some?
                     && Verified(actor.grants, [PlayerMovePermission(p.status, next).value], None)
                     && !Blank(reason))
      && (a.Ok? ==> Untrack(p, a.value) == p.(status := next, changeReason := Some(reason), changedAt := Some(now),
                                                changedBy := Some(actor.id)))
  {
    PlayerPasses(p.status, next, ContextFor(Track(p), reason, actor, false));
  }

  /** Verification: a player awaiting verification is accepted or rejected
      exactly by an actor holding `verify_users` globally, with notes that
      are not blank. */
  lemma VerifyAuthority(p: PlayerRow, next: Status, notes: Option<string>, actor: Actor, now: Time)
    requires p.status == PlayerPendingVerification && next in {PlayerActive, PlayerVerificationRejected}
    ensures Attempt(PlayerRules(), PlayerStatuses, Track(p), next, ReasonText(notes), actor, false, now).Ok? <==>
      Verified(actor.grants, ["verify_users"], None) && notes.Some? && !Blank(notes.value)
  {
    PlayerAttempt(p, next, ReasonText(notes), actor, now);
  }

  /** A ban moves the player to BANNED exactly when the player is ACTIVE or
      SUSPENDED, the actor holds `manage_bans` globally and the reason is not
      blank. */
  lemma BanAuthority(p: PlayerRow, reason: string, actor: Actor, now: Time)
    ensures Attempt(PlayerRules(), PlayerStatuses, Track(p), PlayerBanned, reason, actor, false, now).Ok? <==>
      p.status in {PlayerActive, PlayerSuspended} && Verified(actor.grants, ["manage_bans"], None) && !Blank(reason)
  {
    PlayerPasses(p.status, PlayerBanned, ContextFor(Track(p), reason, actor, false));
    if p.status in {PlayerActive, PlayerSuspended} {
      assert PlayerMovePermission(p.status, PlayerBanned) == Some("manage_bans");
    } else {
      assert PlayerMovePermission(p.status, PlayerBanned).None?;
    }
  }

  /** The player table has no move out of BANNED but deletion, so lifting
      the last ban of a BANNED player can never make them ACTIVE again. */
  lemma BannedStaysBanned(p: PlayerRow, reason: string, actor: Actor, now: Time)
    requires p.status == PlayerBanned
    ensures Attempt(PlayerRules(), PlayerStatuses, Track(p), PlayerActive, reason, actor, false, now)
      == Err(NoMatchingRule)
  {
    PlayerNoRule(p.status, PlayerActive, ContextFor(Track(p), reason, actor, false));
  }

  // ---------------------------------------------------------------- as written

  /** `ban_player` as written: after the ban row is flushed, the status
      service is called with `entity=` although its parameter is
      `player_id`, which raises, so for any existing player the request
      fails and the ban is rolled back. */
  function BanPlayerAsWritten(players: map<Id, PlayerRow>, player: Id): (r: Result<Ban, AdminError>)
    ensures r.Err?
    ensures r == Err(PlayerNotFound) <==> player !in players
  {
    if player !in players then Err(PlayerNotFound) else Err(StatusCallRejected)
  }

  /** `revoke_ban` as written: the checks and the revocation go through,
      but when no other ACTIVE ban of the player remains the status service
      is called with `entity=`, which raises and rolls the revocation back. */
  function RevokeBanAsWritten(bans: map<Id, Ban>, id: Id, actor: Id, reason: string): (r: Result<Ban, AdminError>)
    ensures id !in bans ==> r == Err(BanNotFound)
    ensures id in bans && bans[id].status != BanActive ==> r == Err(BanNotActive)
    ensures id in bans && bans[id].status == BanActive ==>
      (r.Ok? <==> PlayerBans(bans, bans[id].playerId, false) - {id} != {})
  {
    if id !in bans then Err(BanNotFound)
    else if bans[id].status != BanActive then Err(BanNotActive)
    else
      var revoked := bans[id].(status := BanRevoked, revokedBy := Some(actor), revokeReason := Some(reason));
      if PlayerBans(bans[id := revoked], revoked.playerId, false) != {} then Ok(revoked)
      else Err(StatusCallRejected)
  }

  /** An ACTIVE player, an admin holding `manage_bans` and a stated reason:
      as written the ban fails, while the intended status change passes.
      Revoking that player's only ban fails the same way. */
  lemma BanCounterexample()
    ensures var p := PlayerRow(7, PlayerActive, None, None, None, None);
      var admin := Actor(1, [Grant("manage_bans", GlobalScope, None)]);
      var ban := NewBan(3, 7, BanRequest(PermanentBan, None, "cheating", None, None, None), 1, 0);
      && BanPlayerAsWritten(map[7 := p], 7) == Err(StatusCallRejected)
      && Attempt(PlayerRules(), PlayerStatuses, Track(p), PlayerBanned, "cheating", admin, false, 0).Ok?
      && RevokeBanAsWritten(map[3 := ban], 3, 1, "appeal upheld") == Err(StatusCallRejected)
  {
    var p := PlayerRow(7, PlayerActive, None, None, None, None);
    var admin := Actor(1, [Grant("manage_bans", GlobalScope, None)]);
    BanAuthority(p, "cheating", admin, 0);
    assert Covers(admin.grants[0], "manage_bans", None);
    assert Held(admin.grants, "manage_bans", None);
    assert !IsSpace("cheating"[0]);
    var ban := NewBan(3, 7, BanRequest(PermanentBan, None, "cheating", None, None, None), 1, 0);
    var revoked := ban.(status := BanRevoked, revokedBy := Some(1), revokeReason := Some("appeal upheld"));
    assert PlayerBans(map[3 := ban][3 := revoked], 7, false) == {};
  }

  /** The same ban as a status change: the intended transition service
      accepts it, while the service as written fails on the actor's id. */
  lemma TransitionCounterexample()
    ensures var p := PlayerRow(7, PlayerActive, None, None, None, None);
      var admin := Actor(1, [Grant("manage_bans", GlobalScope, None)]);
      && Attempt(PlayerRules(), PlayerStatuses, Track(p), PlayerBanned, "cheating", admin, false, 0).Ok?
      && AttemptAsWritten(PlayerRules(), PlayerStatuses, Track(p), PlayerBanned, "cheating", admin, false) == Err(ActorHasNoId)
  {
    BanCounterexample();
  }

  // ---------------------------------------------------------------- changes

  /** Every player row is stored under its own id. */
  predicate Keyed(players: map<Id, PlayerRow>)
  {
    forall k :: k in players ==> players[k].id == k
  }

  /** What `change_player_status` answers: an unknown player is refused
      (the status service's ValueError); otherwise the transition service's
      verdict on the player rules decides. */
  function StatusOutcome(players: map<Id, PlayerRow>, player: Id, next: Status, reason: string, actor: Actor, now: Time)
    : Result<PlayerRow, AdminError>
  {
    if player !in players then Err(PlayerNotFound)
    else
      var a := Attempt(PlayerRules(), PlayerStatuses, Track(players[player]), next, reason, actor, false, now);
      if a.Err? then Err(Refused(a.error)) else Ok(Untrack(players[player], a.value))
  }

  /** The tables after `change_player_status`: a refusal changes nothing;
      a success writes the player's status fields and logs the change. */
  predicate Changed(before: map<Id, PlayerRow>, after: map<Id, PlayerRow>, logBefore: seq<HistoryEntry>,
                    logAfter: seq<HistoryEntry>, player: Id, next: Status, reason: string, actor: Actor,
                    metadata: map<string, string>, now: Time)
  {
    var c := StatusOutcome(before, player, next, reason, actor, now);
    if c.Err? then after == before && logAfter == logBefore
    else
      && player in before
      && after == before[player := c.value]
      && logAfter == logBefore + [HistoryEntry("Player", player, actor.id, before[player].status, next, reason,
                                               metadata, now)]
  }

  /** A status change of a known player succeeds exactly as the player
      table allows; a success writes the new status with its reason, time
      and actor and touches no other player. */
  lemma OutcomeOfChange(players: map<Id, PlayerRow>, player: Id, next: Status, reason: string, actor: Actor, now: Time)
    requires player in players && next in PlayerStatuses
    ensures var c := StatusOutcome(players, player, next, reason, actor, now);
      var p := players[player];
      && (c.Ok? <==> PlayerMovePermission(p.status, next).Some?
                     && Verified(actor.grants, [PlayerMovePermission(p.status, next).value], None)
                     && !Blank(reason))
      && (c.Ok? ==> c.value == p.(status := next, changeReason := Some(reason), changedAt := Some(now),
                                   changedBy := Some(actor.id)))
  {
    PlayerAttempt(players[player], next, reason, actor, now);
  }

  // ---------------------------------------------------------------- the service

  /** `AdminService` over the players and bans tables, the role store, and
      the transition service whose "Player" manager validates player status
      changes. */
  class AdminService {
    const transitions: TransitionService
    const access: AccessStore
    var players: map<Id, PlayerRow>
    var bans: map<Id, Ban>

    /** Players are stored under their ids, and the transition service
        still holds the player manager. */
    predicate Valid()
      reads this, transitions, transitions.managers.Values
    {
      && Keyed(players)
      && "Player" in transitions.managers
      && transitions.managers["Player"].rules == PlayerRules()
      && transitions.managers["Player"].statuses == PlayerStatuses
      && transitions.managers["Player"].entityType == "Player"
    }

    /** The constructor registers the player manager; the managers of the
        other entity types stay. */
    constructor (transitions: TransitionService, access: AccessStore, players: map<Id, PlayerRow>)
      requires Keyed(players)
      modifies transitions`managers
      ensures this.transitions == transitions && this.access == access && this.players == players && bans == map[]
      ensures Valid()
      ensures forall t :: t in old(transitions.managers) && t != "Player" ==>
        t in transitions.managers && transitions.managers[t] == old(transitions.managers)[t]
    {
      this.transitions := transitions;
      this.access := access;
      this.players := players;
      bans := map[];
      new;
      var manager := InitializePlayerManager();
      transitions.Register("Player", manager);
    }

    /** `change_player_status` of the player status service. */
    method ChangePlayerStatus(player: Id, next: Status, reason: string, actor: Actor, metadata: map<string, string>,
                              now: Time)
      returns (r: Result<PlayerRow, AdminError>)
      requires Valid()
      modifies this`players, transitions`history
      ensures Valid()
      ensures r == StatusOutcome(old(players), player, next, reason, actor, now)
      ensures Changed(old(players), players, old(transitions.history), transitions.history, player, next, reason,
                      actor, metadata, now)
    {
      if player !in players {
        return Err(PlayerNotFound);
      }
      var p := players[player];
      var t := transitions.TransitionStatus(Track(p), next, reason, actor, false, metadata, now);
      if t.Err? {
        return Err(Refused(t.error));
      }
      r := Ok(Untrack(p, t.value));
      players := players[player := r.value];
    }

    /** `verify_player`: the player is moved to the requested status with
        the admin notes as reason and the verification details as
        metadata. */
    method VerifyPlayer(player: Id, next: Status, notes: Option<string>, dateText: string, actor: Actor, now: Time)
      returns (r: Result<PlayerRow, AdminError>)
      requires Valid()
      modifies this`players, transitions`history
      ensures Valid()
      ensures r == StatusOutcome(old(players), player, next, ReasonText(notes), actor, now)
      ensures player in old(players) ==>
        Changed(old(players), players, old(transitions.history), transitions.history, player, next, ReasonText(notes),
                actor, VerifyMetadata(old(players)[player], notes, dateText, actor.id), now)
      ensures player !in old(players) ==> players == old(players) && transitions.history == old(transitions.history)
    {
      if player !in players {
        return Err(PlayerNotFound);
      }
      var metadata := VerifyMetadata(players[player], notes, dateText, actor.id);
      r := ChangePlayerStatus(player, next, ReasonText(notes), actor, metadata, now);
    }

    /** `ban_player` as intended: an unknown player is refused; otherwise an
        ACTIVE ban under the fresh key `id` is created and the player is
        moved to BANNED; when the move is refused the ban is rolled back. */
    method BanPlayer(id: Id, player: Id, data: BanRequest, actor: Actor, now: Time)
      returns (r: Result<Ban, AdminError>)
      requires Valid() && id !in bans && WellFormedRequest(data)
      modifies this`bans, this`players, transitions`history
      ensures Valid()
      ensures Changed(old(players), players, old(transitions.history), transitions.history, player, PlayerBanned,
                      data.reason, actor, BanMetadata(id, data), now)
      ensures var c := StatusOutcome(old(players), player, PlayerBanned, data.reason, actor, now);
        && (c.Err? ==> r == Err(c.error) && bans == old(bans))
        && (c.Ok? ==> r == Ok(NewBan(id, player, data, actor.id, now)) && bans == old(bans)[id := r.value])
    {
      if player !in players {
        return Err(PlayerNotFound);
      }
      var ban := NewBan(id, player, data, actor.id, now);
      var before := bans;
      bans := bans[id := ban];
      var changed := ChangePlayerStatus(player, PlayerBanned, data.reason, actor, BanMetadata(id, data), now);
      if changed.Err? {
        bans := before;
        return Err(changed.error);
      }
      r := Ok(ban);
    }

    /** `revoke_ban` as intended: an unknown or no longer ACTIVE ban is
        refused; otherwise the ban is REVOKED with the actor and reason, and
        when the player has no other ACTIVE ban the player is moved to
        ACTIVE; a refused move rolls the revocation back. */
    method RevokeBan(id: Id, reason: string, actor: Actor, now: Time)
      returns (r: Result<Ban, AdminError>)
      requires Valid()
      modifies this`bans, this`players, transitions`history
      ensures Valid()
      ensures id !in old(bans) ==> r == Err(BanNotFound)
      ensures id in old(bans) && old(bans)[id].status != BanActive ==> r == Err(BanNotActive)
      ensures r.Err? ==>
        bans == old(bans) && players == old(players) && transitions.history == old(transitions.history)
      ensures r.Ok? ==>
        && id in old(bans) && old(bans)[id].status == BanActive
        && r.value == old(bans)[id].(status := BanRevoked, revokedBy := Some(actor.id), revokeReason := Some(reason))
        && bans == old(bans)[id := r.value]
      ensures id in old(bans) && old(bans)[id].status == BanActive ==>
        var player := old(bans)[id].playerId;
        && (PlayerBans(old(bans), player, false) - {id} != {} ==>
              r.Ok? && players == old(players) && transitions.history == old(transitions.history))
        && (PlayerBans(old(bans), player, false) - {id} == {} ==>
              var c := StatusOutcome(old(players), player, PlayerActive, RevokeReason(id, reason), actor, now);
              && (c.Err? ==> r == Err(c.error))
              && Changed(old(players), players, old(transitions.history), transitions.history, player, PlayerActive,
                         RevokeReason(id, reason), actor, map["revoked_ban_id" := IdText(id)], now))
    {
      if id !in bans {
        return Err(BanNotFound);
      }
      var ban := bans[id];
      if ban.status != BanActive {
        return Err(BanNotActive);
      }
      var revoked := ban.(status := BanRevoked, revokedBy := Some(actor.id), revokeReason := Some(reason));
      var before := bans;
      bans := bans[id := revoked];
      assert PlayerBans(bans, ban.playerId, false) == PlayerBans(before, ban.playerId, false) - {id};
      if PlayerBans(bans, ban.playerId, false) == {} {
        var metadata := map["revoked_ban_id" := IdText(id)];
        var changed := ChangePlayerStatus(ban.playerId, PlayerActive, RevokeReason(id, reason), actor, metadata, now);
        if changed.Err? {
          bans := before;
          return Err(changed.error);
        }
      }
      r := Ok(revoked);
    }

    /** `assign_role`: an unknown player or role is refused; otherwise the
        role service adds the assignment. */
    method AssignRole(player: Id, role: Id, scopeType: ScopeType, scopeId: Option<Id>)
      returns (r: Result<PlayerRole, AdminError>)
      modifies access`playerRoles
      ensures player !in players ==> r == Err(PlayerNotFound) && access.playerRoles == old(access.playerRoles)
      ensures player in players && RoleIndex(access.roles, role).None? ==>
        r == Err(NoSuchRole) && access.playerRoles == old(access.playerRoles)
      ensures player in players && RoleIndex(access.roles, role).Some? ==>
        && (scopeType != GlobalScope && scopeId.None? ==>
              r == Err(RoleRefused(ScopeIdRequired)) && access.playerRoles == old(access.playerRoles))
        && (scopeType == GlobalScope || scopeId.Some? ==>
              r == Ok(PlayerRole(player, role, scopeType, scopeId))
              && access.playerRoles == old(access.playerRoles) + [r.value])
    {
      if player !in players {
        return Err(PlayerNotFound);
      }
      if RoleIndex(access.roles, role).None? {
        return Err(NoSuchRole);
      }
      var added := access.AssignRole(player, role, scopeType, scopeId);
      if added.Err? {
        return Err(RoleRefused(added.error));
      }
      r := Ok(added.value);
    }
  }
}
