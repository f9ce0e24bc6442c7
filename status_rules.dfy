/** The five transition managers built on the framework: their rule tables,
    the functions that build them, and what each table decides.  Each
    decision lemma characterises `Decide` on the table by an independent
    statement of which moves exist and what each one demands. */
module StatusRules {
  import opened Common
  import opened Access
  import opened StatusChecks
  import opened StatusFramework

  // ---------------------------------------------------------------- Player

  const PlayerStatuses: set<Status> := {PlayerActive, PlayerPendingVerification, PlayerVerificationRejected,
                                         PlayerInactive, PlayerSuspended, PlayerBanned, PlayerDeleted}

  /** `initialize_player_status_manager`'s rules, in order. */
  function PlayerRules(): seq<Rule>
  {
    [ Rule(Some({PlayerPendingVerification}), {PlayerActive}, [RequiredReason], ["verify_users"]),
      Rule(Some({PlayerPendingVerification}), {PlayerVerificationRejected}, [RequiredReason], ["verify_users"]),
      Rule(Some({PlayerVerificationRejected}), {PlayerPendingVerification}, [RequiredReason], ["verify_users"]),
      Rule(Some({PlayerActive}), {PlayerInactive}, [RequiredReason], ["user"]),
      Rule(Some({PlayerActive}), {PlayerSuspended}, [RequiredReason, SuspensionDuration], ["manage_users"]),
      Rule(Some({PlayerActive, PlayerSuspended}), {PlayerBanned}, [RequiredReason], ["manage_bans"]),
      Rule(None, {PlayerDeleted}, [RequiredReason], ["manage_users"]),
      Rule(Some({PlayerSuspended}), {PlayerActive}, [RequiredReason], ["manage_users"]),
      Rule(Some({PlayerInactive}), {PlayerActive}, [RequiredReason], ["user"]) ]
  }

  /** The player moves and the permission each one needs. */
  function PlayerMovePermission(cur: Status, next: Status): Option<string>
  {
    if next == PlayerDeleted then Some("manage_users")
    else if cur == PlayerPendingVerification && next in {PlayerActive, PlayerVerificationRejected} then Some("verify_users")
    else if cur == PlayerVerificationRejected && next == PlayerPendingVerification then Some("verify_users")
    else if cur == PlayerActive && next == PlayerInactive then Some("user")
    else if cur == PlayerActive && next == PlayerSuspended then Some("manage_users")
    else if cur in {PlayerActive, PlayerSuspended} && next == PlayerBanned then Some("manage_bans")
    else if cur == PlayerSuspended && next == PlayerActive then Some("manage_users")
    else if cur == PlayerInactive && next == PlayerActive then Some("user")
    else None
  }

  method InitializePlayerManager() returns (m: TransitionManager)
    ensures fresh(m) && m.rules == PlayerRules() && m.statuses == PlayerStatuses && m.entityType == "Player"
  {
    m := new TransitionManager(PlayerStatuses, "Player");
    m.AddRule(PlayerRules()[0]);
    m.AddRule(PlayerRules()[1]);
    m.AddRule(PlayerRules()[2]);
    m.AddRule(PlayerRules()[3]);
    m.AddRule(PlayerRules()[4]);
    m.AddRule(PlayerRules()[5]);
    m.AddRule(PlayerRules()[6]);
    m.AddRule(PlayerRules()[7]);
    m.AddRule(PlayerRules()[8]);
  }

  /** The position of the rule that decides a player move. */
  function PlayerRuleIndex(cur: Status, next: Status): Option<nat>
  {
    if next == PlayerDeleted then Some(6)
    else if cur == PlayerPendingVerification && next == PlayerActive then Some(0)
    else if cur == PlayerPendingVerification && next == PlayerVerificationRejected then Some(1)
    else if cur == PlayerVerificationRejected && next == PlayerPendingVerification then Some(2)
    else if cur == PlayerActive && next == PlayerInactive then Some(3)
    else if cur == PlayerActive && next == PlayerSuspended then Some(4)
    else if cur in {PlayerActive, PlayerSuspended} && next == PlayerBanned then Some(5)
    else if cur == PlayerSuspended && next == PlayerActive then Some(7)
    else if cur == PlayerInactive && next == PlayerActive then Some(8)
    else None
  }

  lemma PlayerFirstRule(cur: Status, next: Status)
    ensures FirstRule(PlayerRules(), Some(cur), next) == PlayerRuleIndex(cur, next)
  {
    var rules := PlayerRules();
    var c := Some(cur);
    match PlayerRuleIndex(cur, next)
    case None =>
      forall j | 0 <= j < |rules| ensures !Applies(rules[j], c, next) {
        if j == 0 {} else if j == 1 {} else if j == 2 {} else if j == 3 {} else if j == 4 {}
        else if j == 5 {} else if j == 6 {} else if j == 7 {} else {}
      }
    case Some(i) =>
      forall j | 0 <= j < i ensures !Applies(rules[j], c, next) {
        if j == 0 {} else if j == 1 {} else if j == 2 {} else if j == 3 {} else if j == 4 {}
        else if j == 5 {} else if j == 6 {} else {}
      }
      FirstIs(rules, c, next, i);
  }

  /** What the deciding rule of a player move demands. */
  lemma PlayerRuleShape(cur: Status, next: Status)
    requires PlayerRuleIndex(cur, next).Some?
    ensures var rule := PlayerRules()[PlayerRuleIndex(cur, next).value];
      && rule.permissions == [PlayerMovePermission(cur, next).value]
      && (rule.checks == [RequiredReason] || (next == PlayerSuspended && rule.checks == [RequiredReason, SuspensionDuration]))
  {
    var i := PlayerRuleIndex(cur, next).value;
    if i == 0 {} else if i == 1 {} else if i == 2 {} else if i == 3 {} else if i == 4 {}
    else if i == 5 {} else if i == 6 {} else if i == 7 {} else {}
  }

  /** A player move matches no rule exactly when the table lacks it. */
  lemma PlayerNoRule(cur: Status, next: Status, ctx: Context)
    ensures Decide(PlayerRules(), Some(cur), next, ctx) == Fail(NoMatchingRule) <==> PlayerMovePermission(cur, next).None?
  {
    PlayerFirstRule(cur, next);
  }

  /** A player move passes exactly when it is one of the table's moves, the
      actor holds its permission at global scope and the reason is not
      blank. In particular a suspension needs no end date. */
  lemma PlayerPasses(cur: Status, next: Status, ctx: Context)
    ensures Decide(PlayerRules(), Some(cur), next, ctx) == Pass <==>
      && PlayerMovePermission(cur, next).Some?
      && Verified(ctx.actor.grants, [PlayerMovePermission(cur, next).value], None)
      && !Blank(ctx.reason)
  {
    PlayerFirstRule(cur, next);
    if PlayerRuleIndex(cur, next).Some? {
      PlayerRuleVerdict(cur, next, ctx);
    }
  }

  /** What the deciding rule of a player move makes of it. */
  lemma PlayerRuleVerdict(cur: Status, next: Status, ctx: Context)
    requires PlayerRuleIndex(cur, next).Some?
    ensures RuleVerdict(PlayerRules()[PlayerRuleIndex(cur, next).value], Some(cur), next, ctx) == Pass <==>
      Verified(ctx.actor.grants, [PlayerMovePermission(cur, next).value], None) && !Blank(ctx.reason)
  {
    var rule := PlayerRules()[PlayerRuleIndex(cur, next).value];
    PlayerRuleShape(cur, next);
    if |rule.checks| == 1 {
      OneCheckVerdict(rule, Some(cur), next, ctx);
    } else {
      SuspensionIgnoresPlayerStatuses(Some(cur), next, ctx);
      TwoCheckVerdict(rule, Some(cur), next, ctx);
    }
  }

  /** A BANNED player can only be DELETED, and a DELETED one only DELETED
      again: every other move matches no rule. */
  lemma PlayerTerminalStatuses(cur: Status, next: Status, ctx: Context)
    requires cur in {PlayerBanned, PlayerDeleted}
    ensures Decide(PlayerRules(), Some(cur), next, ctx) == Fail(NoMatchingRule) <==> next != PlayerDeleted
  {
    PlayerNoRule(cur, next, ctx);
  }

  /** A blank reason refuses every player move. */
  lemma PlayerReasonRequired(cur: Status, next: Status, ctx: Context)
    requires Blank(ctx.reason)
    ensures Decide(PlayerRules(), Some(cur), next, ctx) != Pass
  {
    PlayerPasses(cur, next, ctx);
  }

  /** `check_player_access`: only an ACTIVE player has access. */
  predicate HasAccess(status: Option<Status>)
  {
    status == Some(PlayerActive)
  }

  // ---------------------------------------------------------------- Roster

  const RosterStatuses: set<Status> := {RosterActive, RosterPending, RosterRemoved, RosterPast, RosterSuspended}

  /** `initialize_roster_status_manager`'s rules, in order; none lists a
      permission, the permission validator decides instead. */
  function RosterRules(): seq<Rule>
  {
    [ Rule(Some({RosterPending}), {RosterActive}, [RosterReason, RosterPermission], []),
      Rule(Some({RosterActive}), {RosterRemoved}, [RosterReason, RosterPermission], []),
      Rule(Some({RosterActive}), {RosterSuspended}, [RosterReason, RosterPermission], []),
      Rule(Some({RosterSuspended}), {RosterActive}, [RosterReason, RosterPermission], []),
      Rule(None, {RosterPast}, [RosterReason, RosterPermission], []) ]
  }

  /** The roster moves the table has. */
  predicate RosterMove(cur: Status, next: Status)
  {
    || (cur == RosterPending && next == RosterActive)
    || (cur == RosterActive && next in {RosterRemoved, RosterSuspended})
    || (cur == RosterSuspended && next == RosterActive)
    || next == RosterPast
  }

  /** Who may make a roster move: a global team admin any move; the entry's
      own player only ACTIVE to REMOVED; any other captain of the entry's
      team the moves of the captain table. */
  predicate RosterActorMay(cur: Status, next: Status, ctx: Context)
  {
    || GlobalTeamAdmin(ctx.actor)
    || (ctx.actor.id == ctx.subject.playerId && cur == RosterActive && next == RosterRemoved)
    || (ctx.actor.id != ctx.subject.playerId && TeamCaptainOf(ctx.actor, ctx.subject.teamId) && CaptainRosterMove(Some(cur), next))
  }

  method InitializeRosterManager() returns (m: TransitionManager)
    ensures fresh(m) && m.rules == RosterRules() && m.statuses == RosterStatuses && m.entityType == "Roster"
  {
    m := new TransitionManager(RosterStatuses, "Roster");
    m.AddRule(RosterRules()[0]);
    m.AddRule(RosterRules()[1]);
    m.AddRule(RosterRules()[2]);
    m.AddRule(RosterRules()[3]);
    m.AddRule(RosterRules()[4]);
  }

  /** The position of the rule that decides a roster move. */
  function RosterRuleIndex(cur: Status, next: Status): Option<nat>
  {
    if next == RosterPast then Some(4)
    else if cur == RosterPending && next == RosterActive then Some(0)
    else if cur == RosterActive && next == RosterRemoved then Some(1)
    else if cur == RosterActive && next == RosterSuspended then Some(2)
    else if cur == RosterSuspended && next == RosterActive then Some(3)
    else None
  }

  lemma RosterFirstRule(cur: Status, next: Status)
    ensures FirstRule(RosterRules(), Some(cur), next) == RosterRuleIndex(cur, next)
  {
    var rules := RosterRules();
    var c := Some(cur);
    match RosterRuleIndex(cur, next)
    case None =>
      forall j | 0 <= j < |rules| ensures !Applies(rules[j], c, next) {
        if j == 0 {} else if j == 1 {} else if j == 2 {} else if j == 3 {} else {}
      }
    case Some(i) =>
      forall j | 0 <= j < i ensures !Applies(rules[j], c, next) {
        if j == 0 {} else if j == 1 {} else if j == 2 {} else {}
      }
      FirstIs(rules, c, next, i);
  }

  /** Every roster rule runs the reason validator, then the permission
      validator, and lists no permission. */
  lemma RosterRuleShape(i: nat)
    requires i < |RosterRules()|
    ensures RosterRules()[i].checks == [RosterReason, RosterPermission] && RosterRules()[i].permissions == []
  {
    if i == 0 {} else if i == 1 {} else if i == 2 {} else if i == 3 {} else {}
  }

  /** A roster move matches no rule exactly when the table lacks it. */
  lemma RosterNoRule(cur: Status, next: Status, ctx: Context)
    ensures Decide(RosterRules(), Some(cur), next, ctx) == Fail(NoMatchingRule) <==> !RosterMove(cur, next)
  {
    RosterFirstRule(cur, next);
  }

  /** A roster move made with a session passes exactly when the table has
      it, the reason is not blank and the actor may make it. */
  lemma RosterPasses(cur: Status, next: Status, ctx: Context)
    requires ctx.hasSession
    ensures Decide(RosterRules(), Some(cur), next, ctx) == Pass <==>
      RosterMove(cur, next) && !Blank(ctx.reason) && RosterActorMay(cur, next, ctx)
  {
    RosterFirstRule(cur, next);
    if RosterMove(cur, next) {
      var rule := RosterRules()[RosterRuleIndex(cur, next).value];
      RosterRuleShape(RosterRuleIndex(cur, next).value);
      TwoCheckVerdict(rule, Some(cur), next, ctx);
      RosterPermissionDecision(Some(cur), next, ctx);
    }
  }

  /** A blank reason on a move the table has raises ValueError before the
      permission validator runs. */
  lemma RosterBlankReasonRaises(cur: Status, next: Status, ctx: Context)
    requires RosterMove(cur, next) && Blank(ctx.reason)
    ensures Decide(RosterRules(), Some(cur), next, ctx) == Fail(CheckRaised(RosterReason, ValueErr))
  {
    RosterFirstRule(cur, next);
    RosterRuleShape(RosterRuleIndex(cur, next).value);
  }

  /** A captain cannot drop a PENDING or SUSPENDED entry to REMOVED
      although the captain table of the permission validator allows it: the
      manager has no such rule. */
  lemma RosterRemovalOnlyFromActive(cur: Status, ctx: Context)
    requires cur in {RosterPending, RosterSuspended}
    ensures CaptainRosterMove(Some(cur), RosterRemoved)
    ensures Decide(RosterRules(), Some(cur), RosterRemoved, ctx) == Fail(NoMatchingRule)
  {
    RosterNoRule(cur, RosterRemoved, ctx);
  }

  /** Only a global team admin can move an entry to PAST. */
  lemma RosterPastOnlyAdmins(cur: Status, ctx: Context)
    requires ctx.hasSession
    ensures Decide(RosterRules(), Some(cur), RosterPast, ctx) == Pass <==> GlobalTeamAdmin(ctx.actor) && !Blank(ctx.reason)
  {
    RosterPasses(cur, RosterPast, ctx);
  }

  // ---------------------------------------------------------------- Captain

  const CaptainStatuses: set<Status> := {CaptainActive, CaptainPending, CaptainRemoved, CaptainTemporary, CaptainDisbanded}

  /** `initialize_captain_status_manager`'s rules, in order; every one lists
      `manage_team`, which the framework checks at global scope. */
  function CaptainRules(): seq<Rule>
  {
    [ Rule(Some({CaptainActive}), {CaptainRemoved}, [CaptainReason, TeamPermission], ["manage_team"]),
      Rule(Some({CaptainActive}), {CaptainTemporary}, [CaptainReason, TeamPermission], ["manage_team"]),
      Rule(Some({CaptainTemporary}), {CaptainActive}, [CaptainReason, TeamPermission], ["manage_team"]),
      Rule(Some({CaptainPending}), {CaptainActive}, [CaptainReason, TeamPermission], ["manage_team"]),
      Rule(Some({CaptainPending}), {CaptainDisbanded}, [CaptainReason], ["manage_team"]),
      Rule(None, {CaptainDisbanded}, [CaptainReason], ["manage_team"]) ]
  }

  /** The captain moves the table has. */
  predicate CaptainMove(cur: Status, next: Status)
  {
    || (cur == CaptainActive && next in {CaptainRemoved, CaptainTemporary})
    || (cur in {CaptainTemporary, CaptainPending} && next == CaptainActive)
    || next == CaptainDisbanded
  }

  method InitializeCaptainManager() returns (m: TransitionManager)
    ensures fresh(m) && m.rules == CaptainRules() && m.statuses == CaptainStatuses && m.entityType == "TeamCaptain"
  {
    m := new TransitionManager(CaptainStatuses, "TeamCaptain");
    m.AddRule(CaptainRules()[0]);
    m.AddRule(CaptainRules()[1]);
    m.AddRule(CaptainRules()[2]);
    m.AddRule(CaptainRules()[3]);
    m.AddRule(CaptainRules()[4]);
    m.AddRule(CaptainRules()[5]);
  }

  /** The position of the rule that decides a captain move. */
  function CaptainRuleIndex(cur: Status, next: Status): Option<nat>
  {
    if cur == CaptainActive && next == CaptainRemoved then Some(0)
    else if cur == CaptainActive && next == CaptainTemporary then Some(1)
    else if cur == CaptainTemporary && next == CaptainActive then Some(2)
    else if cur == CaptainPending && next == CaptainActive then Some(3)
    else if cur == CaptainPending && next == CaptainDisbanded then Some(4)
    else if next == CaptainDisbanded then Some(5)
    else None
  }

  lemma CaptainFirstRule(cur: Status, next: Status)
    ensures FirstRule(CaptainRules(), Some(cur), next) == CaptainRuleIndex(cur, next)
  {
    var rules := CaptainRules();
    var c := Some(cur);
    match CaptainRuleIndex(cur, next)
    case None =>
      forall j | 0 <= j < |rules| ensures !Applies(rules[j], c, next) {
        if j == 0 {} else if j == 1 {} else if j == 2 {} else if j == 3 {} else if j == 4 {} else {}
      }
    case Some(i) =>
      forall j | 0 <= j < i ensures !Applies(rules[j], c, next) {
        if j == 0 {} else if j == 1 {} else if j == 2 {} else if j == 3 {} else {}
      }
      FirstIs(rules, c, next, i);
  }

  /** Every captain rule lists `manage_team` and runs the reason validator;
      all but the two DISBANDED rules then run the team-permission
      validator. */
  lemma CaptainRuleShape(i: nat)
    requires i < |CaptainRules()|
    ensures CaptainRules()[i].permissions == ["manage_team"]
    ensures CaptainRules()[i].checks == if i < 4 then [CaptainReason, TeamPermission] else [CaptainReason]
  {
    if i == 0 {} else if i == 1 {} else if i == 2 {} else if i == 3 {} else if i == 4 {} else {}
  }

  /** A captain move matches no rule exactly when the table lacks it. */
  lemma CaptainNoRule(cur: Status, next: Status, ctx: Context)
    ensures Decide(CaptainRules(), Some(cur), next, ctx) == Fail(NoMatchingRule) <==> !CaptainMove(cur, next)
  {
    CaptainFirstRule(cur, next);
  }

  /** A captain move passes exactly when the table has it, the actor holds
      `manage_team` at GLOBAL scope, the reason is not blank and, except
      for DISBANDED, the team-permission validator agrees. */
  lemma CaptainPasses(cur: Status, next: Status, ctx: Context)
    ensures Decide(CaptainRules(), Some(cur), next, ctx) == Pass <==>
      && CaptainMove(cur, next)
      && Verified(ctx.actor.grants, ["manage_team"], None)
      && !Blank(ctx.reason)
      && (next == CaptainDisbanded || GlobalTeamAdmin(ctx.actor) || TeamCaptainOf(ctx.actor, ctx.subject.teamId))
  {
    CaptainFirstRule(cur, next);
    if CaptainMove(cur, next) {
      var i := CaptainRuleIndex(cur, next).value;
      CaptainRuleShape(i);
      if i < 4 {
        TwoCheckVerdict(CaptainRules()[i], Some(cur), next, ctx);
      } else {
        OneCheckVerdict(CaptainRules()[i], Some(cur), next, ctx);
      }
    }
  }

  /** Reactivating a REMOVED captain matches no rule. */
  lemma CaptainRemovedStaysRemoved(next: Status, ctx: Context)
    ensures Decide(CaptainRules(), Some(CaptainRemoved), next, ctx) == Fail(NoMatchingRule) <==> next != CaptainDisbanded
  {
    CaptainNoRule(CaptainRemoved, next, ctx);
  }

  /** An actor whose grants are all scoped, such as a team captain holding
      `manage_team` for their own team only, never passes a captain move. */
  lemma ScopedCaptainRefused(cur: Status, next: Status, ctx: Context)
    requires forall k :: 0 <= k < |ctx.actor.grants| ==> ctx.actor.grants[k].scopeType != GlobalScope
    ensures Decide(CaptainRules(), Some(cur), next, ctx) != Pass
  {
    CaptainPasses(cur, next, ctx);
    assert !Held(ctx.actor.grants, "manage_team", None);
    assert ["manage_team"][0] == "manage_team";
  }

  // ---------------------------------------------------------------- Team

  const TeamStatuses: set<Status> := {TeamActive, TeamDisbanded, TeamSuspended, TeamArchived}

  /** `initialize_team_status_manager`'s rules, in order. */
  function TeamRules(): seq<Rule>
  {
    [ Rule(Some({TeamActive}), {TeamDisbanded}, [TeamReason, NoActiveMatches], ["manage_teams"]),
      Rule(Some({TeamActive}), {TeamSuspended}, [TeamReason], ["manage_teams"]),
      Rule(Some({TeamSuspended}), {TeamActive}, [TeamReason], ["manage_teams"]),
      Rule(None, {TeamArchived}, [TeamReason], ["admin"]) ]
  }

  /** The team moves and the permission each one needs. */
  function TeamMovePermission(cur: Status, next: Status): Option<string>
  {
    if next == TeamArchived then Some("admin")
    else if (cur == TeamActive && next in {TeamDisbanded, TeamSuspended}) || (cur == TeamSuspended && next == TeamActive) then
      Some("manage_teams")
    else None
  }

  method InitializeTeamManager() returns (m: TransitionManager)
    ensures fresh(m) && m.rules == TeamRules() && m.statuses == TeamStatuses && m.entityType == "Team"
  {
    m := new TransitionManager(TeamStatuses, "Team");
    m.AddRule(TeamRules()[0]);
    m.AddRule(TeamRules()[1]);
    m.AddRule(TeamRules()[2]);
    m.AddRule(TeamRules()[3]);
  }

  /** The position of the rule that decides a team move. */
  function TeamRuleIndex(cur: Status, next: Status): Option<nat>
  {
    if next == TeamArchived then Some(3)
    else if cur == TeamActive && next == TeamDisbanded then Some(0)
    else if cur == TeamActive && next == TeamSuspended then Some(1)
    else if cur == TeamSuspended && next == TeamActive then Some(2)
    else None
  }

  lemma TeamFirstRule(cur: Status, next: Status)
    ensures FirstRule(TeamRules(), Some(cur), next) == TeamRuleIndex(cur, next)
  {
    var rules := TeamRules();
    var c := Some(cur);
    match TeamRuleIndex(cur, next)
    case None =>
      forall j | 0 <= j < |rules| ensures !Applies(rules[j], c, next) {
        if j == 0 {} else if j == 1 {} else if j == 2 {} else {}
      }
    case Some(i) =>
      forall j | 0 <= j < i ensures !Applies(rules[j], c, next) {
        if j == 0 {} else if j == 1 {} else {}
      }
      FirstIs(rules, c, next, i);
  }

  /** What the deciding rule of a team move demands: its permission and a
      reason (the active-matches validator always holds). */
  lemma TeamRuleShape(cur: Status, next: Status)
    requires TeamRuleIndex(cur, next).Some?
    ensures var rule := TeamRules()[TeamRuleIndex(cur, next).value];
      && rule.permissions == [TeamMovePermission(cur, next).value]
      && (rule.checks == [TeamReason] || rule.checks == [TeamReason, NoActiveMatches])
  {
    var i := TeamRuleIndex(cur, next).value;
    if i == 0 {} else if i == 1 {} else if i == 2 {} else {}
  }

  /** A team move matches no rule exactly when the table lacks it. */
  lemma TeamNoRule(cur: Status, next: Status, ctx: Context)
    ensures Decide(TeamRules(), Some(cur), next, ctx) == Fail(NoMatchingRule) <==> TeamMovePermission(cur, next).None?
  {
    TeamFirstRule(cur, next);
  }

  /** A team move passes exactly when the table has it, the actor holds its
      permission at global scope and the reason is not blank. */
  lemma TeamPasses(cur: Status, next: Status, ctx: Context)
    ensures Decide(TeamRules(), Some(cur), next, ctx) == Pass <==>
      && TeamMovePermission(cur, next).Some?
      && Verified(ctx.actor.grants, [TeamMovePermission(cur, next).value], None)
      && !Blank(ctx.reason)
  {
    TeamFirstRule(cur, next);
    if TeamRuleIndex(cur, next).Some? {
      var rule := TeamRules()[TeamRuleIndex(cur, next).value];
      TeamRuleShape(cur, next);
      if |rule.checks| == 1 {
        OneCheckVerdict(rule, Some(cur), next, ctx);
      } else {
        TwoCheckVerdict(rule, Some(cur), next, ctx);
      }
    }
  }

  /** A DISBANDED or ARCHIVED team can only be ARCHIVED. */
  lemma TeamEndStatuses(cur: Status, next: Status, ctx: Context)
    requires cur in {TeamDisbanded, TeamArchived}
    ensures Decide(TeamRules(), Some(cur), next, ctx) == Fail(NoMatchingRule) <==> next != TeamArchived
  {
    TeamNoRule(cur, next, ctx);
  }

  // ---------------------------------------------------------------- Join requests

  const JoinStatuses: set<Status> := {JoinPending, JoinApproved, JoinRejected, JoinCancelled, JoinExpired}

  /** `initialize_join_request_manager`'s rules, in order. The first has no
      from-set, so it applies from ANY status, not only to a request that
      has none yet. */
  function JoinRules(): seq<Rule>
  {
    [ Rule(None, {JoinPending}, [JoinReason, NoExistingTeam], []),
      Rule(Some({JoinPending}), {JoinApproved, JoinRejected}, [JoinReason, JoinCaptain], []),
      Rule(Some({JoinPending}), {JoinCancelled}, [JoinReason, RequesterOnly], []),
      Rule(Some({JoinPending}), {JoinExpired}, [JoinReason], ["manage_teams"]) ]
  }

  /** The join-request moves the table has: to PENDING from anything (or
      from no status), and from PENDING to each end status. */
  predicate JoinMove(cur: Option<Status>, next: Status)
  {
    next == JoinPending || (cur == Some(JoinPending) && next in {JoinApproved, JoinRejected, JoinCancelled, JoinExpired})
  }

  /** Who may make a join-request move: APPROVED or REJECTED a captain of
      the request's team, CANCELLED the requesting player, EXPIRED a global
      `manage_teams`; a new request must come from a player without an
      ACTIVE roster entry that season. */
  predicate JoinActorMay(cur: Option<Status>, next: Status, ctx: Context)
  {
    && (next == JoinPending && cur.None? ==> !ctx.rostered)
    && (next in {JoinApproved, JoinRejected} ==> TeamCaptainOf(ctx.actor, ctx.subject.teamId))
    && (next == JoinCancelled ==> ctx.actor.id == ctx.subject.playerId)
    && (next == JoinExpired ==> GlobalTeamAdmin(ctx.actor))
  }

  method InitializeJoinRequestManager() returns (m: TransitionManager)
    ensures fresh(m) && m.rules == JoinRules() && m.statuses == JoinStatuses && m.entityType == "TeamJoinRequest"
  {
    m := new TransitionManager(JoinStatuses, "TeamJoinRequest");
    m.AddRule(JoinRules()[0]);
    m.AddRule(JoinRules()[1]);
    m.AddRule(JoinRules()[2]);
    m.AddRule(JoinRules()[3]);
  }

  /** The position of the rule that decides a join-request move. */
  function JoinRuleIndex(cur: Option<Status>, next: Status): Option<nat>
  {
    if next == JoinPending then Some(0)
    else if cur != Some(JoinPending) then None
    else if next in {JoinApproved, JoinRejected} then Some(1)
    else if next == JoinCancelled then Some(2)
    else if next == JoinExpired then Some(3)
    else None
  }

  lemma JoinFirstRule(cur: Option<Status>, next: Status)
    ensures FirstRule(JoinRules(), cur, next) == JoinRuleIndex(cur, next)
  {
    var rules := JoinRules();
    match JoinRuleIndex(cur, next)
    case None =>
      forall j | 0 <= j < |rules| ensures !Applies(rules[j], cur, next) {
        if j == 0 {} else if j == 1 {} else if j == 2 {} else {}
      }
    case Some(i) =>
      forall j | 0 <= j < i ensures !Applies(rules[j], cur, next) {
        if j == 0 {} else if j == 1 {} else {}
      }
      FirstIs(rules, cur, next, i);
  }

  /** A join-request move matches no rule exactly when the table lacks it. */
  lemma JoinNoRule(cur: Option<Status>, next: Status, ctx: Context)
    ensures Decide(JoinRules(), cur, next, ctx) == Fail(NoMatchingRule) <==> !JoinMove(cur, next)
  {
    JoinFirstRule(cur, next);
  }

  /** A join-request move passes exactly when the table has it, the reason
      is not blank and the actor may make it. */
  lemma JoinPasses(cur: Option<Status>, next: Status, ctx: Context)
    ensures Decide(JoinRules(), cur, next, ctx) == Pass <==>
      JoinMove(cur, next) && !Blank(ctx.reason) && JoinActorMay(cur, next, ctx)
  {
    JoinFirstRule(cur, next);
    if JoinMove(cur, next) {
      JoinRuleVerdict(cur, next, ctx);
    }
  }

  /** What the deciding rule of a join-request move makes of it. */
  lemma JoinRuleVerdict(cur: Option<Status>, next: Status, ctx: Context)
    requires JoinMove(cur, next)
    ensures RuleVerdict(JoinRules()[JoinRuleIndex(cur, next).value], cur, next, ctx) == Pass <==>
      !Blank(ctx.reason) && JoinActorMay(cur, next, ctx)
  {
    var i := JoinRuleIndex(cur, next).value;
    var rule := JoinRules()[i];
    if i == 0 {
      assert rule.checks == [JoinReason, NoExistingTeam] && rule.permissions == [];
      TwoCheckVerdict(rule, cur, next, ctx);
    } else if i == 1 {
      assert rule.checks == [JoinReason, JoinCaptain] && rule.permissions == [];
      TwoCheckVerdict(rule, cur, next, ctx);
    } else if i == 2 {
      assert rule.checks == [JoinReason, RequesterOnly] && rule.permissions == [];
      TwoCheckVerdict(rule, cur, next, ctx);
    } else {
      assert rule.checks == [JoinReason] && rule.permissions == ["manage_teams"];
      OneCheckVerdict(rule, cur, next, ctx);
    }
  }

  /** A new request (no status yet) can only become PENDING, and does so
      exactly when the reason is not blank and the player has no ACTIVE
      roster entry that season. */
  lemma JoinCreation(next: Status, ctx: Context)
    ensures Decide(JoinRules(), None, next, ctx) == Pass <==> next == JoinPending && !Blank(ctx.reason) && !ctx.rostered
    ensures next != JoinPending ==> Decide(JoinRules(), None, next, ctx) == Fail(NoMatchingRule)
  {
    JoinPasses(None, next, ctx);
    JoinNoRule(None, next, ctx);
  }

  /** A request that was APPROVED, REJECTED, CANCELLED or EXPIRED can be
      put back to PENDING by anyone giving a reason, because the creation
      rule applies from any status and its roster check only runs for a
      request without a status; every other move from there matches no
      rule. */
  lemma JoinReopens(cur: Status, next: Status, ctx: Context)
    requires cur in {JoinApproved, JoinRejected, JoinCancelled, JoinExpired}
    ensures Decide(JoinRules(), Some(cur), JoinPending, ctx) == Pass <==> !Blank(ctx.reason)
    ensures next != JoinPending ==> Decide(JoinRules(), Some(cur), next, ctx) == Fail(NoMatchingRule)
  {
    JoinPasses(Some(cur), JoinPending, ctx);
    JoinNoRule(Some(cur), next, ctx);
  }
}
