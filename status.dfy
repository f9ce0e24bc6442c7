/** The generic status-transition framework: a manager holds an ordered list
    of rules; a transition is decided by the first rule whose from-set
    (or "any") holds the current status and whose to-set holds the
    requested one, then by the rule's required permissions at global scope,
    then by its validators in order.  The transition service keeps one
    manager per entity type, validates before it changes anything, and on
    success writes the entity's status fields and appends a history entry. */
module StatusFramework {
  import opened Common
  import opened Access
  import opened StatusChecks
  import opened StableSort

  /** `StatusTransitionRule`: `from` None means any current status. */
  datatype Rule = Rule(from: Option<set<Status>>, to: set<Status>, checks: seq<Check>, permissions: seq<string>)

  /** Why a transition is refused: no manager for the entity type
      (ValueError), a requested status outside the manager's enum
      (ValueError), no applicable rule, missing permissions, a validator
      returning false, or a validator raising. */
  datatype TransitionFailure =
    | NoManager
    | UnknownStatus
    | NoMatchingRule
    | InsufficientPermissions
    | ValidationFailed(check: Check)
    | CheckRaised(check: Check, kind: Raised)

  /** The rule applies to the move from `cur` to `next`. */
  predicate Applies(rule: Rule, cur: Option<Status>, next: Status)
  {
    (rule.from.None? || (cur.Some? && cur.value in rule.from.value)) && next in rule.to
  }

  /** The position of the first applicable rule. */
  function FirstRule(rules: seq<Rule>, cur: Option<Status>, next: Status): (r: Option<nat>)
    ensures r.None? <==> forall j :: 0 <= j < |rules| ==> !Applies(rules[j], cur, next)
    ensures r.Some? ==> (r.value < |rules| && Applies(rules[r.value], cur, next)
      && forall j :: 0 <= j < r.value ==> !Applies(rules[j], cur, next))
  {
    if rules == [] then None
    else if Applies(rules[0], cur, next) then Some(0)
    else match FirstRule(rules[1..], cur, next)
      case None => None
      case Some(i) => Some(i + 1)
  }

  /** The validators run in order; the first one that does not hold decides
      the failure. */
  function RunChecks(checks: seq<Check>, cur: Option<Status>, next: Status, ctx: Context): (r: Outcome<TransitionFailure>)
    ensures r == Pass <==> forall k :: 0 <= k < |checks| ==> RunCheck(checks[k], cur, next, ctx) == Holds
    ensures r.Fail? ==> r.error.ValidationFailed? || r.error.CheckRaised?
  {
    if checks == [] then Pass
    else if RunCheck(checks[0], cur, next, ctx) == Holds then RunChecks(checks[1..], cur, next, ctx)
    else Fail(FailureOf(checks[0], RunCheck(checks[0], cur, next, ctx)))
  }

  /** A failure comes from the first validator that does not hold: every
      validator before it holds, and its verdict gives the failure. */
  lemma {:induction false} FirstFailingCheck(checks: seq<Check>, cur: Option<Status>, next: Status, ctx: Context)
    requires RunChecks(checks, cur, next, ctx).Fail?
    ensures exists k :: (0 <= k < |checks|
      && (forall j :: 0 <= j < k ==> RunCheck(checks[j], cur, next, ctx) == Holds)
      && RunChecks(checks, cur, next, ctx).error == FailureOf(checks[k], RunCheck(checks[k], cur, next, ctx)))
  {
    if RunCheck(checks[0], cur, next, ctx) == Holds {
      var rest := checks[1..];
      FirstFailingCheck(rest, cur, next, ctx);
      var k :| 0 <= k < |rest|
        && (forall j :: 0 <= j < k ==> RunCheck(rest[j], cur, next, ctx) == Holds)
        && RunChecks(rest, cur, next, ctx).error == FailureOf(rest[k], RunCheck(rest[k], cur, next, ctx));
      assert checks[k + 1] == rest[k];
      assert forall j :: 1 <= j < k + 1 ==> checks[j] == rest[j - 1];
    } else {
      assert RunChecks(checks, cur, next, ctx).error == FailureOf(checks[0], RunCheck(checks[0], cur, next, ctx));
    }
  }

  /** The failure a validator's verdict produces. */
  function FailureOf(c: Check, v: Verdict): TransitionFailure
  {
    if v.Raises? then CheckRaised(c, v.kind) else ValidationFailed(c)
  }

  /** What the deciding rule makes of a move: its permissions at global
      scope when it lists any, then its validators. It never answers
      `NoMatchingRule`. */
  function RuleVerdict(rule: Rule, cur: Option<Status>, next: Status, ctx: Context): (r: Outcome<TransitionFailure>)
    ensures r == Pass <==>
      && Verified(ctx.actor.grants, rule.permissions, None)
      && forall k :: 0 <= k < |rule.checks| ==> RunCheck(rule.checks[k], cur, next, ctx) == Holds
    ensures r != Fail(NoMatchingRule)
  {
    if |rule.permissions| > 0 && !Verified(ctx.actor.grants, rule.permissions, None) then
      Fail(InsufficientPermissions)
    else
      RunChecks(rule.checks, cur, next, ctx)
  }

  /** A rule with one validator passes when its permissions are held and
      that validator holds. */
  lemma OneCheckVerdict(rule: Rule, cur: Option<Status>, next: Status, ctx: Context)
    requires |rule.checks| == 1
    ensures RuleVerdict(rule, cur, next, ctx) == Pass <==>
      Verified(ctx.actor.grants, rule.permissions, None) && RunCheck(rule.checks[0], cur, next, ctx) == Holds
  {
  }

  /** A rule with two validators passes when its permissions are held and
      both validators hold. */
  lemma TwoCheckVerdict(rule: Rule, cur: Option<Status>, next: Status, ctx: Context)
    requires |rule.checks| == 2
    ensures RuleVerdict(rule, cur, next, ctx) == Pass <==>
      && Verified(ctx.actor.grants, rule.permissions, None)
      && RunCheck(rule.checks[0], cur, next, ctx) == Holds
      && RunCheck(rule.checks[1], cur, next, ctx) == Holds
  {
    if RunCheck(rule.checks[0], cur, next, ctx) == Holds && RunCheck(rule.checks[1], cur, next, ctx) == Holds {
      forall k | 0 <= k < |rule.checks| ensures RunCheck(rule.checks[k], cur, next, ctx) == Holds {
        if k == 0 {} else {}
      }
    }
  }

  /** `validate_transition`: the first applicable rule decides; without one
      the move is refused with `NoMatchingRule`. */
  function Decide(rules: seq<Rule>, cur: Option<Status>, next: Status, ctx: Context): (r: Outcome<TransitionFailure>)
    ensures r == Fail(NoMatchingRule) <==> FirstRule(rules, cur, next).None?
    ensures FirstRule(rules, cur, next).Some? ==> r == RuleVerdict(rules[FirstRule(rules, cur, next).value], cur, next, ctx)
  {
    match FirstRule(rules, cur, next)
    case None => Fail(NoMatchingRule)
    case Some(i) => RuleVerdict(rules[i], cur, next, ctx)
  }

  /** The first applicable rule is the one that applies with none before
      it applying. */
  lemma FirstIs(rules: seq<Rule>, cur: Option<Status>, next: Status, i: nat)
    requires i < |rules| && Applies(rules[i], cur, next)
    requires forall j :: 0 <= j < i ==> !Applies(rules[j], cur, next)
    ensures FirstRule(rules, cur, next) == Some(i)
  {
  }

  /** Rules added after an applicable one are never consulted. */
  lemma {:induction false} FirstRuleAppend(rules: seq<Rule>, more: seq<Rule>, cur: Option<Status>, next: Status)
    requires FirstRule(rules, cur, next).Some?
    ensures FirstRule(rules + more, cur, next) == FirstRule(rules, cur, next)
  {
    if !Applies(rules[0], cur, next) {
      assert (rules + more)[1..] == rules[1..] + more;
      FirstRuleAppend(rules[1..], more, cur, next);
    }
  }

  /** Adding rules never changes the decision on a move that an earlier rule
      already covers. */
  lemma LaterRulesIgnored(rules: seq<Rule>, more: seq<Rule>, cur: Option<Status>, next: Status, ctx: Context)
    requires FirstRule(rules, cur, next).Some?
    ensures Decide(rules + more, cur, next, ctx) == Decide(rules, cur, next, ctx)
  {
    FirstRuleAppend(rules, more, cur, next);
    assert (rules + more)[FirstRule(rules, cur, next).value] == rules[FirstRule(rules, cur, next).value];
  }

  /** A move is refused with `NoMatchingRule` exactly when no rule applies. */
  lemma NoRuleIff(rules: seq<Rule>, cur: Option<Status>, next: Status, ctx: Context)
    ensures Decide(rules, cur, next, ctx) == Fail(NoMatchingRule) <==>
      forall j :: 0 <= j < |rules| ==> !Applies(rules[j], cur, next)
  {
  }

  /** `StatusTransitionManager`: the status enum's values, the entity type
      name written into history entries, and the rules in insertion order. */
  class TransitionManager {
    const statuses: set<Status>
    const entityType: string
    var rules: seq<Rule>

    constructor (statuses: set<Status>, entityType: string)
      ensures this.statuses == statuses && this.entityType == entityType && rules == []
    {
      this.statuses := statuses;
      this.entityType := entityType;
      rules := [];
    }

    /** `add_rule`. */
    method AddRule(rule: Rule)
      modifies this`rules
      ensures rules == old(rules) + [rule]
    {
      rules := rules + [rule];
    }

    /** `validate_transition`: finds the first applicable rule, verifies its
        permissions, then runs its validators. */
    method ValidateTransition(cur: Option<Status>, next: Status, ctx: Context) returns (r: Outcome<TransitionFailure>)
      ensures r == Decide(rules, cur, next, ctx)
    {
      var i := FindRule(rules, cur, next);
      if i.None? {
        return Fail(NoMatchingRule);
      }
      var rule := rules[i.value];
      if |rule.permissions| > 0 {
        var ok := VerifyPermissions(ctx.actor.grants, rule.permissions, None);
        if !ok {
          return Fail(InsufficientPermissions);
        }
      }
      r := RunValidators(rule.checks, cur, next, ctx);
    }
  }

  /** The search loop of `validate_transition`. */
  method FindRule(rules: seq<Rule>, cur: Option<Status>, next: Status) returns (r: Option<nat>)
    ensures r == FirstRule(rules, cur, next)
  {
    var i := 0;
    while i < |rules|
      invariant 0 <= i <= |rules|
      invariant forall j :: 0 <= j < i ==> !Applies(rules[j], cur, next)
    {
      if Applies(rules[i], cur, next) {
        return Some(i);
      }
      i := i + 1;
    }
    return None;
  }

  /** The validator loop of `validate_transition`. */
  method RunValidators(checks: seq<Check>, cur: Option<Status>, next: Status, ctx: Context) returns (r: Outcome<TransitionFailure>)
    ensures r == RunChecks(checks, cur, next, ctx)
  {
    var k := 0;
    while k < |checks|
      invariant 0 <= k <= |checks|
      invariant RunChecks(checks[k..], cur, next, ctx) == RunChecks(checks, cur, next, ctx)
    {
      assert checks[k..][1..] == checks[k + 1..];
      var v := RunCheck(checks[k], cur, next, ctx);
      if v != Holds {
        return Fail(FailureOf(checks[k], v));
      }
      k := k + 1;
    }
    return Pass;
  }

  /** An entity whose status the service manages: its class name (the key
      the manager is looked up by), id, status fields and the ids the
      validators read. */
  datatype Tracked = Tracked(typeName: string, id: Id, status: Status, changeReason: Option<string>,
                             changedAt: Option<Time>, changedBy: Option<Id>, subject: Subject)

  /** A status-change audit event. */
  datatype HistoryEntry = HistoryEntry(entityType: string, entityId: Id, actorId: Id, previous: Status, next: Status,
                                       reason: string, metadata: map<string, string>, at: Time)

  /** The outcome of `transition_status` for an entity whose manager has
      `rules` over `statuses`: an unknown status or a refused validation is
      an error; otherwise the entity with its new status fields. The context
      carries the actor, the reason and the session, never an end date;
      `rostered` is the roster fact a join-request validator queries. */
  function Attempt(rules: seq<Rule>, statuses: set<Status>, e: Tracked, next: Status, reason: string, actor: Actor,
                   rostered: bool, now: Time): (r: Result<Tracked, TransitionFailure>)
    ensures next !in statuses ==> r == Err(UnknownStatus)
    ensures r.Ok? <==> next in statuses && Decide(rules, Some(e.status), next, ContextFor(e, reason, actor, rostered)) == Pass
    ensures r.Err? && next in statuses ==> Decide(rules, Some(e.status), next, ContextFor(e, reason, actor, rostered)) == Fail(r.error)
    ensures r.Ok? ==> (r.value.status == next && r.value.changeReason == Some(reason) && r.value.changedAt == Some(now)
      && r.value.changedBy == Some(actor.id)
      && r.value.(status := e.status, changeReason := e.changeReason, changedAt := e.changedAt, changedBy := e.changedBy) == e)
  {
    if next !in statuses then Err(UnknownStatus)
    else match Decide(rules, Some(e.status), next, ContextFor(e, reason, actor, rostered))
      case Fail(f) => Err(f)
      case Pass => Ok(e.(status := next, changeReason := Some(reason), changedAt := Some(now), changedBy := Some(actor.id)))
  }

  /** How `transition_status` fails as written: a refusal of the intended
      decision, or an attribute error from reading the acting player's
      `id`, a field the player record does not have (it is keyed by `uid`). */
  datatype AsWrittenFailure = Declined(failure: TransitionFailure) | ActorHasNoId

  /** `transition_status` as written. An unknown status and a move no rule
      covers are refused before the actor is read. A rule that lists
      permissions looks the actor's grants up by `id` and so raises; past
      the validators the history entry reads `actor.id` and raises too. So
      no transition ever succeeds, and every move the intended service
      accepts ends in the attribute error. */
  function AttemptAsWritten(rules: seq<Rule>, statuses: set<Status>, e: Tracked, next: Status, reason: string, actor: Actor,
                            rostered: bool): (r: Result<Tracked, AsWrittenFailure>)
    ensures r.Err?
    ensures next !in statuses ==> r == Err(Declined(UnknownStatus))
    ensures next in statuses && FirstRule(rules, Some(e.status), next).None? ==> r == Err(Declined(NoMatchingRule))
    ensures (next in statuses && FirstRule(rules, Some(e.status), next).Some?
             && |rules[FirstRule(rules, Some(e.status), next).value].permissions| > 0) ==> r == Err(ActorHasNoId)
    ensures forall now :: Attempt(rules, statuses, e, next, reason, actor, rostered, now).Ok? ==> r == Err(ActorHasNoId)
  {
    if next !in statuses then Err(Declined(UnknownStatus))
    else match FirstRule(rules, Some(e.status), next)
      case None => Err(Declined(NoMatchingRule))
      case Some(i) =>
        if |rules[i].permissions| > 0 then Err(ActorHasNoId)
        else match RunChecks(rules[i].checks, Some(e.status), next, ContextFor(e, reason, actor, rostered))
          case Pass => Err(ActorHasNoId)
          case Fail(f) => Err(Declined(f))
  }

  /** The context `transition_status` builds for an entity. */
  function ContextFor(e: Tracked, reason: string, actor: Actor, rostered: bool): Context
  {
    Context(actor, reason, e.subject, None, rostered, true)
  }

  /** A view of one history entry; the metadata only when asked for. */
  datatype HistoryView = HistoryView(previous: Status, next: Status, reason: string, changedBy: Id, createdAt: Time,
                                     metadata: Option<map<string, string>>)

  /** The entries about one entity. */
  function EntriesOf(history: seq<HistoryEntry>, entityType: string, entityId: Id): (r: seq<HistoryEntry>)
    ensures forall k :: 0 <= k < |r| ==> r[k] in history && r[k].entityType == entityType && r[k].entityId == entityId
    ensures forall k :: 0 <= k < |history| && history[k].entityType == entityType && history[k].entityId == entityId ==>
      history[k] in r
    ensures |r| <= |history|
  {
    if history == [] then []
    else
      var head := if history[0].entityType == entityType && history[0].entityId == entityId then [history[0]] else [];
      head + EntriesOf(history[1..], entityType, entityId)
  }

  function EntryKey(h: HistoryEntry): Key
  {
    Key(h.at, 0, 0)
  }

  function View(h: HistoryEntry, withMetadata: bool): (v: HistoryView)
    ensures v.metadata.Some? <==> withMetadata
  {
    HistoryView(h.previous, h.next, h.reason, h.actorId, h.at, if withMetadata then Some(h.metadata) else None)
  }

  /** The list comprehension over the entries. */
  function Views(entries: seq<HistoryEntry>, withMetadata: bool): (r: seq<HistoryView>)
    ensures |r| == |entries|
    ensures forall k :: 0 <= k < |r| ==> r[k] == View(entries[k], withMetadata)
  {
    if entries == [] then [] else [View(entries[0], withMetadata)] + Views(entries[1..], withMetadata)
  }

  /** `get_status_history`: the entity's entries, newest first, each as a
      view that carries the metadata only when asked for. */
  function StatusHistory(history: seq<HistoryEntry>, entityType: string, entityId: Id, withMetadata: bool)
    : (r: seq<HistoryView>)
    ensures |r| == |EntriesOf(history, entityType, entityId)|
    ensures forall k :: 0 <= k < |r| ==> (r[k].metadata.Some? <==> withMetadata)
  {
    Views(SortDesc(EntriesOf(history, entityType, entityId), EntryKey), withMetadata)
  }

  /** The history is newest first: creation times never increase along it. */
  lemma HistoryNewestFirst(history: seq<HistoryEntry>, entityType: string, entityId: Id, withMetadata: bool)
    ensures var r := StatusHistory(history, entityType, entityId, withMetadata);
      forall i, j :: 0 <= i < j < |r| ==> r[i].createdAt >= r[j].createdAt
  {
    var sorted := SortDesc(EntriesOf(history, entityType, entityId), EntryKey);
    SortDescCorrect(EntriesOf(history, entityType, entityId), EntryKey);
    var r := StatusHistory(history, entityType, entityId, withMetadata);
    forall i, j | 0 <= i < j < |r| ensures r[i].createdAt >= r[j].createdAt {
      assert Ge(EntryKey(sorted[i]), EntryKey(sorted[j]));
    }
  }

  /** Each view in the history shows an entry about the entity. */
  lemma HistoryOnlyOfEntity(history: seq<HistoryEntry>, entityType: string, entityId: Id, withMetadata: bool, k: nat)
    requires k < |StatusHistory(history, entityType, entityId, withMetadata)|
    ensures exists h :: (h in history && h.entityType == entityType && h.entityId == entityId
      && StatusHistory(history, entityType, entityId, withMetadata)[k] == View(h, withMetadata))
  {
    var entries := EntriesOf(history, entityType, entityId);
    var sorted := SortDesc(entries, EntryKey);
    SortDescCorrect(entries, EntryKey);
    assert sorted[k] in multiset(entries);
    assert sorted[k] in entries;
  }

  /** Every entry about the entity appears in its history. */
  lemma HistoryComplete(history: seq<HistoryEntry>, entityType: string, entityId: Id, withMetadata: bool, h: HistoryEntry)
    requires h in history && h.entityType == entityType && h.entityId == entityId
    ensures View(h, withMetadata) in StatusHistory(history, entityType, entityId, withMetadata)
  {
    var entries := EntriesOf(history, entityType, entityId);
    var sorted := SortDesc(entries, EntryKey);
    SortDescCorrect(entries, EntryKey);
    assert h in multiset(sorted);
    var k :| 0 <= k < |sorted| && sorted[k] == h;
    assert StatusHistory(history, entityType, entityId, withMetadata)[k] == View(h, withMetadata);
  }

  /** `StatusTransitionService`: a manager per entity type and the audit
      log of status changes. */
  class TransitionService {
    var managers: map<string, TransitionManager>
    var history: seq<HistoryEntry>

    constructor ()
      ensures managers == map[] && history == []
    {
      managers := map[];
      history := [];
    }

    /** `register_transition_manager`: a later registration for the same
        entity type replaces the earlier one. */
    method Register(entityType: string, manager: TransitionManager)
      modifies this`managers
      ensures managers == old(managers)[entityType := manager]
    {
      managers := managers[entityType := manager];
    }

    /** `transition_status`: the manager is looked up by the entity's class
        name; nothing is written unless validation passes; then the entity
        gets its new status, reason, time and actor, and the log gains an
        entry recording the previous and new status under the manager's
        entity type. A missing metadata argument is the empty map. */
    method TransitionStatus(e: Tracked, next: Status, reason: string, actor: Actor, rostered: bool,
                            metadata: map<string, string>, now: Time)
      returns (r: Result<Tracked, TransitionFailure>)
      modifies this`history
      ensures e.typeName !in managers ==> r == Err(NoManager)
      ensures e.typeName in managers ==>
        r == Attempt(managers[e.typeName].rules, managers[e.typeName].statuses, e, next, reason, actor, rostered, now)
      ensures r.Err? ==> history == old(history)
      ensures r.Ok? ==> (history ==
        old(history) + [HistoryEntry(managers[e.typeName].entityType, e.id, actor.id, e.status, next, reason, metadata, now)])
    {
      if e.typeName !in managers {
        return Err(NoManager);
      }
      var manager := managers[e.typeName];
      if next !in manager.statuses {
        return Err(UnknownStatus);
      }
      var ctx := ContextFor(e, reason, actor, rostered);
      var verdict := manager.ValidateTransition(Some(e.status), next, ctx);
      if verdict.Fail? {
        return Err(verdict.error);
      }
      history := history + [HistoryEntry(manager.entityType, e.id, actor.id, e.status, next, reason, metadata, now)];
      return Ok(e.(status := next, changeReason := Some(reason), changedAt := Some(now), changedBy := Some(actor.id)));
    }
  }
}
