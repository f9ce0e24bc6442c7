/** The validators of the status-transition framework and of the five
    managers built on it.  A validator sees the current status (absent for an
    entity that has none yet), the requested (next) status and the context that
    `transition_status` assembles; it either holds, returns false, or raises.

    A status is one of the values of the five StrEnums. StrEnum members
    compare by their text, so members of different enums with the same
    text (RosterStatus.ACTIVE and TeamCaptainStatus.ACTIVE, PlayerStatus
    and TeamStatus "active") are the same status here; `Text` gives each
    status its text. The numbers that stand for the statuses are mere
    codes, one per distinct text. */
module StatusChecks {
  import opened Common
  import opened Access

  newtype Status = x: int | 0 <= x < 21

  const LowerActive: Status := 0
  const PendingVerification: Status := 1
  const VerificationRejected: Status := 2
  const Inactive: Status := 3
  const LowerSuspended: Status := 4
  const Banned: Status := 5
  const Deleted: Status := 6
  const UpperActive: Status := 7
  const UpperPending: Status := 8
  const Removed: Status := 9
  const Past: Status := 10
  const UpperSuspended: Status := 11
  const Temporary: Status := 12
  const UpperDisbanded: Status := 13
  const LowerDisbanded: Status := 14
  const Archived: Status := 15
  const LowerPending: Status := 16
  const Approved: Status := 17
  const Rejected: Status := 18
  const Cancelled: Status := 19
  const Expired: Status := 20

  /** The enum value of a status. */
  function Text(s: Status): string
  {
    if s == LowerActive then "active"
    else if s == PendingVerification then "pending_verification"
    else if s == VerificationRejected then "verification_rejected"
    else if s == Inactive then "inactive"
    else if s == LowerSuspended then "suspended"
    else if s == Banned then "banned"
    else if s == Deleted then "deleted"
    else if s == UpperActive then "ACTIVE"
    else if s == UpperPending then "PENDING"
    else if s == Removed then "REMOVED"
    else if s == Past then "PAST"
    else if s == UpperSuspended then "SUSPENDED"
    else if s == Temporary then "TEMPORARY"
    else if s == UpperDisbanded then "DISBANDED"
    else if s == LowerDisbanded then "disbanded"
    else if s == Archived then "archived"
    else if s == LowerPending then "pending"
    else if s == Approved then "approved"
    else if s == Rejected then "rejected"
    else if s == Cancelled then "cancelled"
    else "expired"
  }

  /** `PlayerStatus`. */
  const PlayerActive: Status := LowerActive
  const PlayerPendingVerification: Status := PendingVerification
  const PlayerVerificationRejected: Status := VerificationRejected
  const PlayerInactive: Status := Inactive
  const PlayerSuspended: Status := LowerSuspended
  const PlayerBanned: Status := Banned
  const PlayerDeleted: Status := Deleted

  /** `RosterStatus`. */
  const RosterActive: Status := UpperActive
  const RosterPending: Status := UpperPending
  const RosterRemoved: Status := Removed
  const RosterPast: Status := Past
  const RosterSuspended: Status := UpperSuspended

  /** `TeamCaptainStatus`. */
  const CaptainActive: Status := UpperActive
  const CaptainPending: Status := UpperPending
  const CaptainRemoved: Status := Removed
  const CaptainTemporary: Status := Temporary
  const CaptainDisbanded: Status := UpperDisbanded

  /** `TeamStatus`. */
  const TeamActive: Status := LowerActive
  const TeamDisbanded: Status := LowerDisbanded
  const TeamSuspended: Status := LowerSuspended
  const TeamArchived: Status := Archived

  /** `JoinRequestStatus`. */
  const JoinPending: Status := LowerPending
  const JoinApproved: Status := Approved
  const JoinRejected: Status := Rejected
  const JoinCancelled: Status := Cancelled
  const JoinExpired: Status := Expired

  /** The acting player: their id and the grants their roles give them. */
  datatype Actor = Actor(id: Id, grants: seq<Grant>)

  /** What the validators read from the entity: the player it concerns and
      the team it belongs to (`player_id`, `team_id` or `team.id`). */
  datatype Subject = Subject(playerId: Id, teamId: Id)

  /** The validation context. `hasSession` says whether a database session
      was passed; `rostered` is the answer of the roster query that
      `NoExistingTeamValidator` runs (an ACTIVE roster entry of the
      subject's player in the request's season); `endDate` is the context's
      `end_date`, which `transition_status` never sets. */
  datatype Context = Context(actor: Actor, reason: string, subject: Subject, endDate: Option<Time>,
                             rostered: bool, hasSession: bool)

  /** One validator instance of a rule. */
  datatype Check =
    | RequiredReason        // HasRequiredReasonValidator
    | SuspensionDuration    // SuspensionDurationValidator
    | RosterReason          // RosterReasonValidator
    | RosterPermission      // RosterTransitionPermissionValidator
    | CaptainReason         // HasValidReasonValidator of the captain manager
    | TeamPermission        // TeamPermissionValidator
    | TeamReason            // TeamStatusReasonValidator
    | NoActiveMatches       // NoActiveMatchesValidator
    | JoinReason            // HasValidReasonValidator of the join-request manager
    | JoinCaptain           // TeamCaptainValidator
    | RequesterOnly         // RequesterOnlyValidator
    | NoExistingTeam        // NoExistingTeamValidator

  /** The exception class a validator raises. */
  datatype Raised = TransitionErr | ValueErr

  /** What a validator does: holds, returns false, or raises. */
  datatype Verdict = Holds | Refuses | Raises(kind: Raised)

  /** The characters Python's `str.strip()` removes (`str.isspace`). */
  predicate IsSpace(c: char)
  {
    var n := c as int;
    n == 0x20 || 0x09 <= n <= 0x0d || 0x1c <= n <= 0x1f || n == 0x85 || n == 0xa0 || n == 0x1680
    || 0x2000 <= n <= 0x200a || n == 0x2028 || n == 0x2029 || n == 0x202f || n == 0x205f || n == 0x3000
  }

  /** `reason and reason.strip()` is falsy: the reason is empty or all
      whitespace. */
  predicate Blank(reason: string)
  {
    forall i :: 0 <= i < |reason| ==> IsSpace(reason[i])
  }

  /** Holds `manage_teams` at global scope. */
  predicate GlobalTeamAdmin(actor: Actor)
  {
    Verified(actor.grants, ["manage_teams"], None)
  }

  /** Holds `manage_team` for the given team. */
  predicate TeamCaptainOf(actor: Actor, team: Id)
  {
    Verified(actor.grants, ["manage_team"], Some(PermissionScope(TeamScope, Some(team))))
  }

  /** The captain's `allowed_transitions` table of the roster validator. */
  predicate CaptainRosterMove(cur: Option<Status>, next: Status)
  {
    || (cur == Some(RosterPending) && next in {RosterActive, RosterRemoved})
    || (cur == Some(RosterActive) && next in {RosterRemoved, RosterSuspended})
    || (cur == Some(RosterSuspended) && next in {RosterActive, RosterRemoved})
  }

  /** Runs one validator. */
  function RunCheck(c: Check, cur: Option<Status>, next: Status, ctx: Context): (v: Verdict)
    ensures c in {RequiredReason, RosterReason, CaptainReason, TeamReason, JoinReason} ==>
      (v == Holds <==> !Blank(ctx.reason))
    ensures c == NoActiveMatches ==> v == Holds
  {
    match c
    case RequiredReason =>
      if Blank(ctx.reason) then Refuses else Holds
    case SuspensionDuration =>
      if Text(next) == "SUSPENDED" && ctx.endDate.None? then Refuses else Holds
    case RosterReason =>
      if Blank(ctx.reason) then Raises(ValueErr) else Holds
    case RosterPermission =>
      if !ctx.hasSession then Raises(ValueErr)
      else if GlobalTeamAdmin(ctx.actor) then Holds
      else if ctx.actor.id == ctx.subject.playerId then
        (if cur == Some(RosterActive) && next == RosterRemoved then Holds else Refuses)
      else if TeamCaptainOf(ctx.actor, ctx.subject.teamId) then
        (if CaptainRosterMove(cur, next) then Holds else Refuses)
      else Refuses
    case CaptainReason =>
      if Blank(ctx.reason) then Raises(TransitionErr) else Holds
    case TeamPermission =>
      if GlobalTeamAdmin(ctx.actor) || TeamCaptainOf(ctx.actor, ctx.subject.teamId) then Holds
      else Raises(TransitionErr)
    case TeamReason =>
      if Blank(ctx.reason) then Raises(ValueErr) else Holds
    case NoActiveMatches =>
      Holds
    case JoinReason =>
      if Blank(ctx.reason) then Raises(TransitionErr) else Holds
    case JoinCaptain =>
      if next !in {JoinApproved, JoinRejected} || TeamCaptainOf(ctx.actor, ctx.subject.teamId) then Holds
      else Raises(TransitionErr)
    case RequesterOnly =>
      if next != JoinCancelled || ctx.actor.id == ctx.subject.playerId then Holds
      else Raises(TransitionErr)
    case NoExistingTeam =>
      if cur.None? && ctx.rostered then Raises(TransitionErr) else Holds
  }

  /** The suspension validator asks for an end date only when the requested
      status is the text SUSPENDED, so it never asks for one on a player
      status, whose values are lower case. */
  lemma SuspensionIgnoresPlayerStatuses(cur: Option<Status>, next: Status, ctx: Context)
    requires next in {PlayerActive, PlayerPendingVerification, PlayerVerificationRejected, PlayerInactive,
                     PlayerSuspended, PlayerBanned, PlayerDeleted}
    ensures RunCheck(SuspensionDuration, cur, next, ctx) == Holds
  {
  }

  /** On the status whose text is SUSPENDED the suspension validator holds
      exactly when an end date is given. */
  lemma SuspensionNeedsEndDate(cur: Option<Status>, ctx: Context)
    ensures RunCheck(SuspensionDuration, cur, UpperSuspended, ctx) == Holds <==> ctx.endDate.Some?
  {
  }

  /** The roster permission validator raises without a session; given one,
      it never raises, and: a global team
      admin passes every move; otherwise the entry's own player may only go
      ACTIVE to REMOVED, whatever captain rights they hold; otherwise a
      captain of the entry's team may make the moves of the captain table;
      nobody else passes. */
  lemma RosterPermissionDecision(cur: Option<Status>, next: Status, ctx: Context)
    ensures !ctx.hasSession ==> RunCheck(RosterPermission, cur, next, ctx) == Raises(ValueErr)
    ensures ctx.hasSession ==> RunCheck(RosterPermission, cur, next, ctx) in {Holds, Refuses}
    ensures ctx.hasSession ==> (RunCheck(RosterPermission, cur, next, ctx) == Holds <==>
      || GlobalTeamAdmin(ctx.actor)
      || (ctx.actor.id == ctx.subject.playerId && cur == Some(RosterActive) && next == RosterRemoved)
      || (ctx.actor.id != ctx.subject.playerId && TeamCaptainOf(ctx.actor, ctx.subject.teamId) && CaptainRosterMove(cur, next)))
  {
  }
}
