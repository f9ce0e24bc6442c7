/** Tournament map pools: an admin fixes the maps of a pool outright, or the
    teams vote on maps for a while and the pool is then cut down to the most
    voted maps. The service keeps three tables: the pools, the pool's maps
    with their vote counts (keyed, like their primary key, by pool and map),
    and the votes cast. */
module MapPools {
  import opened Common
  import opened StableSort

  datatype SelectionType = AdminDefined | TeamVoting | PlayerVoting

  datatype PoolStatus = Voting | Finalized | Cancelled

  /** A row of `tournament_map_pools`; the voting fields are set only for a
      voting pool. */
  datatype Pool = Pool(tournamentId: Id, selectionType: SelectionType, status: PoolStatus,
                       votingStart: Option<Time>, votingEnd: Option<Time>, mapsToSelect: Option<int>,
                       votesPerTeam: Option<int>, finalizedAt: Option<Time>)

  /** A row of `map_pool_maps` without its key. */
  datatype PoolMap = PoolMap(voteCount: Option<int>, addedAt: Time)

  /** A row of `map_pool_votes`. */
  datatype Vote = Vote(id: Id, poolId: Id, teamId: Id, mapId: Id, votedAt: Time)

  datatype MapPoolError =
    | MapNotFound(mapId: Id)   // "Map {map_id} not found"
    | DuplicateMap             // the same map twice violates the pool-map primary key at commit
    | PoolNotFound             // "Map pool not found"
    | VotingNotOpen            // "Voting is not currently open"
    | VotingEnded              // "Voting period has ended"
    | NoVotesLeft              // "Team has used all available votes"
    | NotVoting                // "Map pool is not in voting status"
    | VotingNotEnded           // "Voting period has not ended"

  // ---------------------------------------------------------------- votes

  /** The votes the team has cast in the pool. */
  function VotesOf(votes: seq<Vote>, pool: Id, team: Id): nat
  {
    CountIf(votes, (v: Vote) => v.poolId == pool && v.teamId == team)
  }

  /** One more vote adds one to its own team's tally in its own pool and
      leaves every other tally alone. */
  lemma {:induction false} VotesAfter(votes: seq<Vote>, v: Vote, pool: Id, team: Id)
    ensures VotesOf(votes + [v], pool, team)
      == VotesOf(votes, pool, team) + if v.poolId == pool && v.teamId == team then 1 else 0
  {
    CountIfAppend(votes, [v], (w: Vote) => w.poolId == pool && w.teamId == team);
    assert [v][1..] == [];
  }

  /** No team holds more votes in a pool than the pool allows it; every vote
      belongs to a pool with a budget. */
  predicate WithinBudget(pools: map<Id, Pool>, votes: seq<Vote>)
  {
    forall v :: v in votes ==>
      && v.poolId in pools && pools[v.poolId].votesPerTeam.Some?
      && VotesOf(votes, v.poolId, v.teamId) <= pools[v.poolId].votesPerTeam.value
  }

  /** The stored vote count, a missing one counting as 0. */
  function CountOf(pm: PoolMap): int
  {
    match pm.voteCount
    case None => 0
    case Some(c) => c
  }

  // ---------------------------------------------------------------- ranking

  /** The sort key of `ORDER BY vote_count DESC`; a missing count sorts
      first, as a NULL does in a descending PostgreSQL order. */
  function VoteKey(c: Option<int>): Key
  {
    match c
    case None => Key(1, 0, 0)
    case Some(d) => Key(0, d, 0)
  }

  /** A count ranks at least as high as another exactly when it is missing
      or both are present and it is not smaller. */
  lemma VoteKeyOrder(c: Option<int>, d: Option<int>)
    ensures Ge(VoteKey(c), VoteKey(d)) <==> c.None? || (d.Some? && c.value >= d.value)
  {
  }

  /** The maps of the pool. */
  function MapsIn(poolMaps: map<(Id, Id), PoolMap>, pool: Id): set<Id>
  {
    set k | k in poolMaps && k.0 == pool :: k.1
  }

  /** The pool's maps in the order the finalizing query returns them: most
      votes first. Rows with equal counts come in an order the database
      leaves open; the model lists them by map id. */
  function Ranked(poolMaps: map<(Id, Id), PoolMap>, pool: Id): (r: seq<Id>)
    ensures |r| == |MapsIn(poolMaps, pool)|
    ensures forall m :: m in r <==> m in MapsIn(poolMaps, pool)
    ensures forall i, j :: 0 <= i < j < |r| ==> Ge(RankKey(poolMaps, pool, r[i]), RankKey(poolMaps, pool, r[j]))
  {
    var ids := Ordered(MapsIn(poolMaps, pool));
    var key := (m: Id) => RankKey(poolMaps, pool, m);
    SortDescCorrect(ids, key);
    var r := SortDesc(ids, key);
    assert forall m :: m in r <==> m in multiset(ids);
    r
  }

  /** The sort key of a map of the pool. */
  function RankKey(poolMaps: map<(Id, Id), PoolMap>, pool: Id, m: Id): Key
  {
    if (pool, m) in poolMaps then VoteKey(poolMaps[(pool, m)].voteCount) else VoteKey(Some(0))
  }

  /** The length of Python's `maps[:n]` for a list of length `len`: a
      negative `n` counts from the end. */
  function KeepCount(len: nat, n: int): (r: nat)
    ensures r <= len
    ensures n >= 0 ==> r == if n <= len then n else len
    ensures n < 0 ==> r == if len + n >= 0 then len + n else 0
  {
    if n >= 0 then (if n <= len then n else len) else if len + n >= 0 then len + n else 0
  }

  /** Finalizing keeps the best ranked maps: every map kept has at least as
      many votes as every map deleted, a missing count ranking first. */
  lemma KeptOutrankDropped(poolMaps: map<(Id, Id), PoolMap>, pool: Id, n: int, kept: Id, dropped: Id)
    requires var r := Ranked(poolMaps, pool);
      kept in MapsIn(poolMaps, pool) && kept !in r[KeepCount(|r|, n)..] && dropped in r[KeepCount(|r|, n)..]
    ensures (pool, kept) in poolMaps && (pool, dropped) in poolMaps
    ensures var c := poolMaps[(pool, kept)].voteCount;
      var d := poolMaps[(pool, dropped)].voteCount;
      c.None? || (d.Some? && c.value >= d.value)
  {
    var r := Ranked(poolMaps, pool);
    var c := KeepCount(|r|, n);
    var i :| 0 <= i < |r| && r[i] == kept;
    var j :| c <= j < |r| && r[j] == dropped;
    assert forall t :: c <= t < |r| ==> r[t] in r[c..] by {
      forall t | c <= t < |r| ensures r[t] in r[c..] {
        assert r[c..][t - c] == r[t];
      }
    }
    assert i < j;
    assert dropped in MapsIn(poolMaps, pool);
    VoteKeyOrder(poolMaps[(pool, kept)].voteCount, poolMaps[(pool, dropped)].voteCount);
  }

  /** The maps finalizing deletes: those ranked after the first `n`. */
  function Dropped(poolMaps: map<(Id, Id), PoolMap>, pool: Id, n: int): seq<Id>
  {
    var r := Ranked(poolMaps, pool);
    r[KeepCount(|r|, n)..]
  }

  /** The pool-map table without the listed maps of the pool. */
  function Without(poolMaps: map<(Id, Id), PoolMap>, pool: Id, ds: seq<Id>): (r: map<(Id, Id), PoolMap>)
    ensures forall k :: k in r <==> k in poolMaps && (k.0 != pool || k.1 !in ds)
    ensures forall k :: k in r ==> r[k] == poolMaps[k]
  {
    map k | k in poolMaps && (k.0 != pool || k.1 !in ds) :: poolMaps[k]
  }

  /** Deleting one more map. */
  lemma WithoutStep(poolMaps: map<(Id, Id), PoolMap>, pool: Id, ds: seq<Id>, d: Id)
    ensures Without(poolMaps, pool, ds + [d]) == Without(poolMaps, pool, ds) - {(pool, d)}
  {
    MapsAgree(Without(poolMaps, pool, ds + [d]), Without(poolMaps, pool, ds) - {(pool, d)});
  }

  /** Every VOTING pool carries its voting settings. */
  predicate Settled(pools: map<Id, Pool>)
  {
    forall p :: p in pools && pools[p].status == Voting ==>
      pools[p].votingEnd.Some? && pools[p].mapsToSelect.Some? && pools[p].votesPerTeam.Some?
  }

  /** Why a team's vote is refused, checked in the service's order; None
      when it is accepted. */
  function VoteRefusal(pools: map<Id, Pool>, votes: seq<Vote>, pool: Id, team: Id, now: Time)
    : (r: Option<MapPoolError>)
    requires Settled(pools)
    ensures r.None? <==> pool in pools && pools[pool].status == Voting && now <= pools[pool].votingEnd.value
                         && VotesOf(votes, pool, team) < pools[pool].votesPerTeam.value
    ensures r == Some(PoolNotFound) <==> pool !in pools
    ensures r == Some(VotingNotOpen) <==> pool in pools && pools[pool].status != Voting
    ensures r == Some(VotingEnded) ==> now > pools[pool].votingEnd.value
    ensures r == Some(NoVotesLeft) ==> (VotesOf(votes, pool, team) >= pools[pool].votesPerTeam.value)
  {
    if pool !in pools then Some(PoolNotFound)
    else if pools[pool].status != Voting then Some(VotingNotOpen)
    else if now > pools[pool].votingEnd.value then Some(VotingEnded)
    else if VotesOf(votes, pool, team) >= pools[pool].votesPerTeam.value then Some(NoVotesLeft)
    else None
  }

  /** The table after a vote for `mapId`: that map's count, a missing one
      counting as 0, goes up by one when the map is in the pool. */
  function Tallied(poolMaps: map<(Id, Id), PoolMap>, pool: Id, mapId: Id): (r: map<(Id, Id), PoolMap>)
    ensures r.Keys == poolMaps.Keys
    ensures forall k :: k in r && k != (pool, mapId) ==> r[k] == poolMaps[k]
    ensures (pool, mapId) in r ==>
      (r[(pool, mapId)].voteCount == Some(CountOf(poolMaps[(pool, mapId)]) + 1)
       && r[(pool, mapId)].addedAt == poolMaps[(pool, mapId)].addedAt)
  {
    if (pool, mapId) in poolMaps then
      poolMaps[(pool, mapId) := poolMaps[(pool, mapId)].(voteCount := Some(CountOf(poolMaps[(pool, mapId)]) + 1))]
    else poolMaps
  }

  /** Why finalizing is refused, checked in the service's order; None when
      it goes ahead. */
  function FinalizeRefusal(pools: map<Id, Pool>, pool: Id, now: Time): (r: Option<MapPoolError>)
    requires Settled(pools)
    ensures r.None? <==> pool in pools && pools[pool].status == Voting && now >= pools[pool].votingEnd.value
    ensures r == Some(PoolNotFound) <==> pool !in pools
    ensures r == Some(NotVoting) <==> pool in pools && pools[pool].status != Voting
    ensures r == Some(VotingNotEnded) <==> pool in pools && pools[pool].status == Voting
                                           && now < pools[pool].votingEnd.value
  {
    if pool !in pools then Some(PoolNotFound)
    else if pools[pool].status != Voting then Some(NotVoting)
    else if now < pools[pool].votingEnd.value then Some(VotingNotEnded)
    else None
  }

  /** The deletion loop of the finalizer: each listed map of the pool is
      deleted in turn. */
  method DeleteMaps(poolMaps: map<(Id, Id), PoolMap>, pool: Id, ds: seq<Id>)
    returns (left: map<(Id, Id), PoolMap>)
    ensures left == Without(poolMaps, pool, ds)
  {
    left := poolMaps;
    var i := 0;
    while i < |ds|
      invariant i <= |ds|
      invariant left == Without(poolMaps, pool, ds[..i])
    {
      assert ds[..i + 1] == ds[..i] + [ds[i]];
      WithoutStep(poolMaps, pool, ds[..i], ds[i]);
      left := left - {(pool, ds[i])};
      i := i + 1;
    }
    assert ds[..i] == ds;
  }

  /** The tables agree with each other: every pool map and vote belongs to
      a pool, a voting pool carries its voting settings, and no team is
      over its vote budget. */
  predicate Consistent(pools: map<Id, Pool>, poolMaps: map<(Id, Id), PoolMap>, votes: seq<Vote>)
  {
    && (forall k :: k in poolMaps ==> k.0 in pools)
    && Settled(pools)
    && WithinBudget(pools, votes)
  }

  /** A vote the team still has budget for keeps every team within budget. */
  lemma {:induction false} VoteKeepsBudget(pools: map<Id, Pool>, votes: seq<Vote>, v: Vote)
    requires WithinBudget(pools, votes)
    requires v.poolId in pools && pools[v.poolId].votesPerTeam.Some?
    requires VotesOf(votes, v.poolId, v.teamId) < pools[v.poolId].votesPerTeam.value
    ensures WithinBudget(pools, votes + [v])
  {
    forall w | w in votes + [v]
      ensures VotesOf(votes + [v], w.poolId, w.teamId) <= pools[w.poolId].votesPerTeam.value
    {
      VotesAfter(votes, v, w.poolId, w.teamId);
    }
  }

  /** An accepted vote and its tally keep the tables consistent. */
  lemma VoteKeepsConsistent(pools: map<Id, Pool>, poolMaps: map<(Id, Id), PoolMap>, votes: seq<Vote>, v: Vote)
    requires Consistent(pools, poolMaps, votes)
    requires VoteRefusal(pools, votes, v.poolId, v.teamId, v.votedAt).None?
    ensures Consistent(pools, Tallied(poolMaps, v.poolId, v.mapId), votes + [v])
  {
    VoteKeepsBudget(pools, votes, v);
  }

  /** Changing a pool's status and stamps leaves the tables consistent. */
  lemma FinalizeKeepsConsistent(pools: map<Id, Pool>, poolMaps: map<(Id, Id), PoolMap>, votes: seq<Vote>,
                                pool: Id, ds: seq<Id>, now: Time)
    requires Consistent(pools, poolMaps, votes) && pool in pools
    ensures Consistent(pools[pool := pools[pool].(status := Finalized, finalizedAt := Some(now))],
                       Without(poolMaps, pool, ds), votes)
  {
  }

  // ---------------------------------------------------------------- the service

  /** `MapPoolService` over the three tables. */
  class MapPoolService {
    var pools: map<Id, Pool>
    var poolMaps: map<(Id, Id), PoolMap>
    var votes: seq<Vote>

    predicate Valid()
      reads this
    {
      Consistent(pools, poolMaps, votes)
    }

    constructor ()
      ensures pools == map[] && poolMaps == map[] && votes == [] && Valid()
    {
      pools := map[];
      poolMaps := map[];
      votes := [];
    }

    /** `create_admin_map_pool`: every listed map must exist (the first
        unknown one is reported); the pool is created FINALIZED under the
        fresh key `id` with exactly the listed maps. */
    method CreateAdminMapPool(id: Id, tournament: Id, mapIds: seq<Id>, knownMaps: set<Id>, now: Time)
      returns (r: Result<Pool, MapPoolError>)
      requires Valid() && id !in pools
      modifies this`pools, this`poolMaps
      ensures Valid()
      ensures r.Err? ==> pools == old(pools) && poolMaps == old(poolMaps)
      ensures (exists k :: 0 <= k < |mapIds| && mapIds[k] !in knownMaps) <==> r.Err? && r.error.MapNotFound?
      ensures r.Err? && r.error.MapNotFound? ==> r.error.mapId !in knownMaps && r.error.mapId in mapIds
      ensures (forall k :: 0 <= k < |mapIds| ==> mapIds[k] in knownMaps) ==>
        ((exists i, j :: 0 <= i < j < |mapIds| && mapIds[i] == mapIds[j]) <==> r == Err(DuplicateMap))
      ensures r.Ok? ==>
        && r.value == Pool(tournament, AdminDefined, Finalized, None, None, None, None, Some(now))
        && pools == old(pools)[id := r.value]
        && (forall k :: k in poolMaps <==> k in old(poolMaps) || (k.0 == id && k.1 in mapIds))
        && (forall k :: k in poolMaps && k !in old(poolMaps) ==> poolMaps[k] == PoolMap(Some(0), now))
        && (forall k :: k in old(poolMaps) ==> poolMaps[k] == old(poolMaps)[k])
    {
      var i := 0;
      while i < |mapIds|
        invariant i <= |mapIds|
        invariant forall k :: 0 <= k < i ==> mapIds[k] in knownMaps
      {
        if mapIds[i] !in knownMaps {
          return Err(MapNotFound(mapIds[i]));
        }
        i := i + 1;
      }
      if exists i, j :: 0 <= i < j < |mapIds| && mapIds[i] == mapIds[j] {
        return Err(DuplicateMap);
      }
      r := Ok(Pool(tournament, AdminDefined, Finalized, None, None, None, None, Some(now)));
      var added := map m | m in mapIds :: (id, m) := PoolMap(Some(0), now);
      pools := pools[id := r.value];
      poolMaps := poolMaps + added;
    }

    /** `create_voting_pool`: a TEAM_VOTING pool in VOTING whose window runs
        from now for `duration`; it starts with no maps and no votes. */
    method CreateVotingPool(id: Id, tournament: Id, duration: int, mapsToSelect: int, votesPerTeam: int, now: Time)
      returns (p: Pool)
      requires Valid() && id !in pools
      modifies this`pools
      ensures Valid()
      ensures p.status == Voting && p.votingStart == Some(now) && p.votingEnd == Some(now + duration)
      ensures p == Pool(tournament, TeamVoting, Voting, Some(now), Some(now + duration), Some(mapsToSelect),
                        Some(votesPerTeam), None)
      ensures pools == old(pools)[id := p]
      ensures MapsIn(poolMaps, id) == {} && forall v :: v in votes ==> v.poolId != id
    {
      p := Pool(tournament, TeamVoting, Voting, Some(now), Some(now + duration), Some(mapsToSelect),
                Some(votesPerTeam), None);
      pools := pools[id := p];
    }

    /** `cast_team_vote`: the pool must exist, be VOTING and its window not
        be over, and the team must have votes left; the vote is recorded and
        the map's count goes up by one when the map is in the pool. */
    method CastTeamVote(voteId: Id, pool: Id, team: Id, mapId: Id, now: Time)
      returns (r: Result<Vote, MapPoolError>)
      requires Valid()
      modifies this`votes, this`poolMaps
      ensures Valid()
      ensures VoteRefusal(pools, old(votes), pool, team, now).Some? ==>
        r == Err(VoteRefusal(pools, old(votes), pool, team, now).value)
        && votes == old(votes) && poolMaps == old(poolMaps)
      ensures VoteRefusal(pools, old(votes), pool, team, now).None? ==>
        && r == Ok(Vote(voteId, pool, team, mapId, now))
        && votes == old(votes) + [r.value]
        && VotesOf(votes, pool, team) == VotesOf(old(votes), pool, team) + 1
        && poolMaps == Tallied(old(poolMaps), pool, mapId)
    {
      var refusal := VoteRefusal(pools, votes, pool, team, now);
      if refusal.Some? {
        return Err(refusal.value);
      }
      var v := Vote(voteId, pool, team, mapId, now);
      VoteKeepsConsistent(pools, poolMaps, votes, v);
      VotesAfter(votes, v, pool, team);
      votes := votes + [v];
      poolMaps := Tallied(poolMaps, pool, mapId);
      r := Ok(v);
    }

    /** `finalize_voting_pool`: the pool must exist, be VOTING and its window
        be over; the maps ranked after the first `maps_to_select` are deleted
        and the pool becomes FINALIZED. */
    method FinalizeVotingPool(pool: Id, now: Time) returns (r: Result<Pool, MapPoolError>)
      requires Valid()
      modifies this`pools, this`poolMaps
      ensures Valid()
      ensures FinalizeRefusal(old(pools), pool, now).Some? ==>
        r == Err(FinalizeRefusal(old(pools), pool, now).value) && pools == old(pools) && poolMaps == old(poolMaps)
      ensures FinalizeRefusal(old(pools), pool, now).None? ==>
        && r == Ok(old(pools)[pool].(status := Finalized, finalizedAt := Some(now)))
        && pools == old(pools)[pool := r.value]
        && poolMaps == Without(old(poolMaps), pool, Dropped(old(poolMaps), pool, old(pools)[pool].mapsToSelect.value))
    {
      var refusal := FinalizeRefusal(pools, pool, now);
      if refusal.Some? {
        return Err(refusal.value);
      }
      var p := pools[pool];
      var dropped := Dropped(poolMaps, pool, p.mapsToSelect.value);
      FinalizeKeepsConsistent(pools, poolMaps, votes, pool, dropped, now);
      var left := DeleteMaps(poolMaps, pool, dropped);
      r := Ok(p.(status := Finalized, finalizedAt := Some(now)));
      pools := pools[pool := r.value];
      poolMaps := left;
    }
  }
}
