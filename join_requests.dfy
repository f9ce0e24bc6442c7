/** The team-join-request workflow: a player asks to join a team for a
    season, a captain approves (which puts the player on the roster) or
    rejects, the player may cancel, and a periodic sweep expires old
    pending requests. The service writes request statuses directly; it
    does not go through the status-transition service. */
module JoinRequests {
  import opened Common
  import opened StatusChecks
  import opened Rosters

  /** A row of `team_join_requests`. */
  datatype JoinRequest = JoinRequest(id: Id, playerId: Id, teamId: Id, seasonId: Id, message: Option<string>,
                                     status: Status, createdAt: Time, updatedAt: Time, respondedAt: Option<Time>,
                                     responseMessage: Option<string>, respondedBy: Option<Id>)

  datatype JoinError =
    | ActiveRequestExists    // "Player already has an active join request"
    | OnTeamThisSeason       // "Player is already on a team this season"
    | NotPending             // "Can only approve / reject / cancel pending requests"
    | NotRequester           // "Only requesting player can cancel request"
    | Roster(error: RosterError)   // raised by the roster service during approval
    | RowNotWritable         // assigning to a field of a result row

  // ---------------------------------------------------------------- queries

  /** A PENDING request of the player for the season. */
  predicate OpenFor(q: JoinRequest, player: Id, season: Id)
  {
    q.playerId == player && q.seasonId == season && q.status == JoinPending
  }

  /** `_get_active_request`: the first PENDING request of the player for the
      season. */
  function ActiveRequest(requests: seq<JoinRequest>, player: Id, season: Id): (r: Option<nat>)
    ensures r.None? <==> forall k :: 0 <= k < |requests| ==> !OpenFor(requests[k], player, season)
    ensures r.Some? ==> r.value < |requests| && OpenFor(requests[r.value], player, season)
  {
    FirstWhere(requests, (q: JoinRequest) => OpenFor(q, player, season))
  }

  /** At most one PENDING request per player and season. */
  predicate OnePendingPerSeason(requests: seq<JoinRequest>)
  {
    forall i, j :: 0 <= i < j < |requests| && requests[i].status == JoinPending && requests[j].status == JoinPending ==>
      requests[i].playerId != requests[j].playerId || requests[i].seasonId != requests[j].seasonId
  }

  /** The filter of `get_team_requests` and `get_player_requests`: resolved
      requests only when asked for. */
  predicate Shown(q: JoinRequest, includeResolved: bool)
  {
    includeResolved || q.status == JoinPending
  }

  /** `get_team_requests`. */
  function TeamRequests(requests: seq<JoinRequest>, team: Id, includeResolved: bool): (r: seq<JoinRequest>)
    ensures forall q :: q in r <==> q in requests && q.teamId == team && Shown(q, includeResolved)
  {
    Filter(requests, (q: JoinRequest) => q.teamId == team && Shown(q, includeResolved))
  }

  /** `get_player_requests`. */
  function PlayerRequests(requests: seq<JoinRequest>, player: Id, includeResolved: bool): (r: seq<JoinRequest>)
    ensures forall q :: q in r <==> q in requests && q.playerId == player && Shown(q, includeResolved)
  {
    Filter(requests, (q: JoinRequest) => q.playerId == player && Shown(q, includeResolved))
  }

  // ---------------------------------------------------------------- rows written

  /** The row `create_request` adds: PENDING, both timestamps now, no response. */
  function NewRequest(id: Id, player: Id, team: Id, season: Id, message: Option<string>, now: Time): JoinRequest
  {
    JoinRequest(id, player, team, season, message, JoinPending, now, now, None, None, None)
  }

  /** A captain's answer: the new status and the response fields. */
  function Answered(q: JoinRequest, status: Status, captain: Id, response: Option<string>, now: Time): JoinRequest
  {
    q.(status := status, respondedBy := Some(captain), respondedAt := Some(now), responseMessage := response,
       updatedAt := now)
  }

  /** The request the sweep with cutoff `cutoff` expires. */
  predicate Expirable(q: JoinRequest, cutoff: Time)
  {
    q.status == JoinPending && q.createdAt < cutoff
  }

  /** `expiry_date` of the sweep: `expiry_days` days before now. */
  function Cutoff(expiryDays: int, now: Time): Time
  {
    now - expiryDays * Day
  }

  /** One row after the sweep: EXPIRED and stamped when expirable, else kept. */
  function Expire(q: JoinRequest, cutoff: Time, now: Time): JoinRequest
  {
    if Expirable(q, cutoff) then q.(status := JoinExpired, updatedAt := now) else q
  }

  /** The table after the sweep: exactly the expirable requests become
      EXPIRED and stamped; every other row is kept. */
  function Swept(requests: seq<JoinRequest>, cutoff: Time, now: Time): (r: seq<JoinRequest>)
    ensures |r| == |requests|
    ensures forall k :: 0 <= k < |r| ==>
      (Expirable(requests[k], cutoff) ==> r[k] == requests[k].(status := JoinExpired, updatedAt := now))
      && (!Expirable(requests[k], cutoff) ==> r[k] == requests[k])
  {
    seq(|requests|, k requires 0 <= k < |requests| => Expire(requests[k], cutoff, now))
  }

  /** How many requests the sweep expires. */
  function ExpirableCount(requests: seq<JoinRequest>, cutoff: Time): nat
  {
    CountIf(requests, (q: JoinRequest) => Expirable(q, cutoff))
  }

  /** Counting the expirable requests one more row at a time. */
  lemma ExpirableCountStep(requests: seq<JoinRequest>, i: nat, cutoff: Time)
    requires i < |requests|
    ensures ExpirableCount(requests[..i + 1], cutoff)
      == ExpirableCount(requests[..i], cutoff) + if Expirable(requests[i], cutoff) then 1 else 0
  {
    assert requests[..i + 1] == requests[..i] + [requests[i]];
    CountIfAppend(requests[..i], [requests[i]], (q: JoinRequest) => Expirable(q, cutoff));
    assert [requests[i]][1..] == [];
  }

  /** After a sweep nothing is left for the same cutoff, so a second sweep
      changes only nothing. */
  lemma SweepIdempotent(requests: seq<JoinRequest>, cutoff: Time, now: Time, later: Time)
    ensures forall k :: 0 <= k < |requests| ==> !Expirable(Swept(requests, cutoff, now)[k], cutoff)
    ensures Swept(Swept(requests, cutoff, now), cutoff, later) == Swept(requests, cutoff, now)
  {
  }

  /** The sweep preserves the one-pending invariant: it only removes
      PENDING rows. */
  lemma SweepKeepsOnePending(requests: seq<JoinRequest>, cutoff: Time, now: Time)
    requires OnePendingPerSeason(requests)
    ensures OnePendingPerSeason(Swept(requests, cutoff, now))
  {
  }

  /** `cleanup_expired_requests` as written: the query's `.all()` yields
      result rows, not request objects, so the first status assignment
      raises and nothing is committed; with nothing to expire it returns 0. */
  function CleanupAsWritten(requests: seq<JoinRequest>, cutoff: Time): (r: Result<nat, JoinError>)
    ensures r.Ok? <==> forall k :: 0 <= k < |requests| ==> !Expirable(requests[k], cutoff)
    ensures r.Ok? ==> r.value == 0
  {
    if ExpirableCount(requests, cutoff) == 0 then Ok(0) else Err(RowNotWritable)
  }

  /** The scenario of the cleanup test: a pending request created ten days
      ago and a seven-day expiry. As written the sweep raises; the intended
      sweep expires that request and reports 1. */
  lemma CleanupCounterexample()
    ensures var q := NewRequest(1, 2, 3, 4, Some("Old request"), 0);
      && CleanupAsWritten([q], Cutoff(7, 10 * Day)) == Err(RowNotWritable)
      && Swept([q], Cutoff(7, 10 * Day), 10 * Day)[0].status == JoinExpired
      && ExpirableCount([q], Cutoff(7, 10 * Day)) == 1
  {
    var q := NewRequest(1, 2, 3, 4, Some("Old request"), 0);
    assert Expirable(q, Cutoff(7, 10 * Day));
    assert [q][1..] == [];
  }

  // ---------------------------------------------------------------- the service

  /** `TeamJoinRequestService`: the request table and the roster service
      approvals go through. */
  class JoinRequestService {
    var requests: seq<JoinRequest>
    const roster: RosterService

    constructor (roster: RosterService)
      ensures this.roster == roster && requests == []
    {
      this.roster := roster;
      requests := [];
    }

    /** `create_request`: refused while the player has a PENDING request for
        the season or an ACTIVE roster entry that season; otherwise a
        PENDING request with the fresh key `id` is added. */
    method CreateRequest(id: Id, player: Id, team: Id, season: Id, message: Option<string>, now: Time)
      returns (r: Result<JoinRequest, JoinError>)
      modifies this`requests
      ensures ActiveRequest(old(requests), player, season).Some? ==>
        r == Err(ActiveRequestExists) && requests == old(requests)
      ensures (ActiveRequest(old(requests), player, season).None?
               && PlayerEntry(roster.entries, player, season, None, false).Some?) ==>
        r == Err(OnTeamThisSeason) && requests == old(requests)
      ensures (ActiveRequest(old(requests), player, season).None?
               && PlayerEntry(roster.entries, player, season, None, false).None?) ==>
        r == Ok(NewRequest(id, player, team, season, message, now)) && requests == old(requests) + [r.value]
      ensures OnePendingPerSeason(old(requests)) ==> OnePendingPerSeason(requests)
    {
      if ActiveRequest(requests, player, season).Some? {
        return Err(ActiveRequestExists);
      }
      if PlayerEntry(roster.entries, player, season, None, false).Some? {
        return Err(OnTeamThisSeason);
      }
      r := Ok(NewRequest(id, player, team, season, message, now));
      requests := requests + [r.value];
    }

    /** `approve_request`: only a PENDING request; it is answered APPROVED
        and the player is added to the team's roster under the fresh key
        `entry`. When the roster refuses, the whole request is rolled back. */
    method ApproveRequest(i: nat, captain: Actor, response: Option<string>, entry: Id, now: Time)
      returns (r: Result<JoinRequest, JoinError>)
      requires i < |requests| && roster.Valid()
      requires forall k :: 0 <= k < |roster.entries| ==> roster.entries[k].id != entry
      modifies this`requests, roster`entries, roster.transitions`history
      ensures roster.Valid()
      ensures old(requests[i]).status != JoinPending ==> r == Err(NotPending)
      ensures PlayerEntry(old(roster.entries), old(requests[i]).playerId, old(requests[i]).seasonId, None, false).Some?
        ==> r.Err?
      ensures r.Err? ==>
        && requests == old(requests) && roster.entries == old(roster.entries)
        && roster.transitions.history == old(roster.transitions.history)
      ensures r.Ok? ==>
        var q := old(requests[i]);
        && q.status == JoinPending
        && r.value == Answered(q, JoinApproved, captain.id, response, now)
        && requests == old(requests)[i := r.value]
        && |roster.entries| == |old(roster.entries)| + 1
        && roster.entries[..|old(roster.entries)|] == old(roster.entries)
        && var e := roster.entries[|old(roster.entries)|];
           e.id == entry && e.teamId == q.teamId && e.playerId == q.playerId && e.seasonId == q.seasonId
           && e.status == RosterActive
      ensures OnePendingPerSeason(old(requests)) ==> OnePendingPerSeason(requests)
      ensures OneActivePerSeason(old(roster.entries)) ==> OneActivePerSeason(roster.entries)
    {
      var q := requests[i];
      if q.status != JoinPending {
        return Err(NotPending);
      }
      var before := requests;
      var answered := Answered(q, JoinApproved, captain.id, response, now);
      requests := requests[i := answered];
      var added := roster.AddPlayerToRoster(entry, q.teamId, q.playerId, q.seasonId, captain, map[], now);
      if added.Err? {
        requests := before;
        return Err(Roster(added.error));
      }
      r := Ok(answered);
    }

    /** `reject_request`: only a PENDING request; it is answered REJECTED. */
    method RejectRequest(i: nat, captain: Actor, response: Option<string>, now: Time)
      returns (r: Result<JoinRequest, JoinError>)
      requires i < |requests|
      modifies this`requests
      ensures old(requests[i]).status != JoinPending ==> r == Err(NotPending) && requests == old(requests)
      ensures old(requests[i]).status == JoinPending ==>
        r == Ok(Answered(old(requests[i]), JoinRejected, captain.id, response, now))
        && requests == old(requests)[i := r.value]
      ensures OnePendingPerSeason(old(requests)) ==> OnePendingPerSeason(requests)
    {
      if requests[i].status != JoinPending {
        return Err(NotPending);
      }
      r := Ok(Answered(requests[i], JoinRejected, captain.id, response, now));
      requests := requests[i := r.value];
    }

    /** `cancel_request`: only the requesting player, and only while the
        request is PENDING (the requester is checked first); it becomes
        CANCELLED without response fields. */
    method CancelRequest(i: nat, player: Id, now: Time)
      returns (r: Result<JoinRequest, JoinError>)
      requires i < |requests|
      modifies this`requests
      ensures old(requests[i]).playerId != player ==> r == Err(NotRequester) && requests == old(requests)
      ensures old(requests[i]).playerId == player && old(requests[i]).status != JoinPending ==>
        r == Err(NotPending) && requests == old(requests)
      ensures old(requests[i]).playerId == player && old(requests[i]).status == JoinPending ==>
        r == Ok(old(requests[i]).(status := JoinCancelled, updatedAt := now))
        && requests == old(requests)[i := r.value]
      ensures OnePendingPerSeason(old(requests)) ==> OnePendingPerSeason(requests)
    {
      if requests[i].playerId != player {
        return Err(NotRequester);
      }
      if requests[i].status != JoinPending {
        return Err(NotPending);
      }
      r := Ok(requests[i].(status := JoinCancelled, updatedAt := now));
      requests := requests[i := r.value];
    }

    /** `cleanup_expired_requests` as intended: every PENDING request created
        before the cutoff becomes EXPIRED, and their number is returned. */
    method CleanupExpiredRequests(expiryDays: int, now: Time) returns (n: nat)
      modifies this`requests
      ensures requests == Swept(old(requests), Cutoff(expiryDays, now), now)
      ensures n == ExpirableCount(old(requests), Cutoff(expiryDays, now))
    {
      var cutoff := Cutoff(expiryDays, now);
      ghost var start := requests;
      n := 0;
      var i := 0;
      while i < |requests|
        invariant i <= |requests| == |start|
        invariant forall k :: 0 <= k < i ==> requests[k] == Expire(start[k], cutoff, now)
        invariant forall k :: i <= k < |requests| ==> requests[k] == start[k]
        invariant n == ExpirableCount(start[..i], cutoff)
      {
        ExpirableCountStep(start, i, cutoff);
        if Expirable(requests[i], cutoff) {
          requests := requests[i := requests[i].(status := JoinExpired, updatedAt := now)];
          n := n + 1;
        }
        i := i + 1;
      }
      assert start[..i] == start;
      assert requests == Swept(start, cutoff, now);
    }
  }
}
