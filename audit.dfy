/** The permission auditor: for each player it sorts the permissions of
    their role assignments into global, per-team and per-tournament sets,
    and reports assignments to teams or tournaments that do not exist and
    scoped management permissions a global one makes redundant. Existence
    lookups are cached for the life of the auditor. */
module PermissionAudit {
  import opened Common
  import opened Access

  /** One role assignment of the player, as `get_player_roles` lists it:
      the role's name, the assignment's scope, and the names of the role's
      permissions. */
  datatype Assignment = Assignment(role: string, scopeType: ScopeType, scopeId: Option<Id>, permissions: seq<string>)

  /** An issue the audit reports. `Missing(TeamScope, k)` is "Permission for
      non-existent team: k", `Redundant(TeamScope)` is "Redundant team
      management permission with global manage_all_teams", and likewise for
      tournaments. Distinct issues have distinct texts. A team or tournament
      key is the assignment's scope id, which may be absent. */
  datatype Issue = Missing(scope: ScopeType, key: Option<Id>) | Redundant(scope: ScopeType)

  /** `PermissionAuditResult`. The dicts keep their insertion order, so each
      per-scope map comes with its keys in first-assignment order. */
  datatype AuditResult = AuditResult(player: Id, roles: seq<string>, global: set<string>,
                                     teamKeys: seq<Option<Id>>, team: map<Option<Id>, set<string>>,
                                     tournamentKeys: seq<Option<Id>>, tournament: map<Option<Id>, set<string>>,
                                     issues: seq<Issue>)

  datatype AuditError = PlayerNotFound

  /** The names of a permission list, as a set. */
  function Names(ps: seq<string>): set<string>
  {
    set p | p in ps
  }

  /** No key occurs twice. */
  predicate Distinct<T(==)>(s: seq<T>)
  {
    forall i, j :: 0 <= i < j < |s| ==> s[i] != s[j]
  }

  // ---------------------------------------------------------------- classification

  /** The assignment is of scope type `s` with scope id `k`. */
  predicate Scoped(a: Assignment, s: ScopeType, k: Option<Id>)
  {
    a.scopeType == s && a.scopeId == k
  }

  /** The role names, one per assignment, in order. */
  function RoleNames(granted: seq<Assignment>): (r: seq<string>)
    ensures |r| == |granted|
  {
    if granted == [] then [] else RoleNames(granted[..|granted| - 1]) + [granted[|granted| - 1].role]
  }

  /** The permissions the GLOBAL assignments give, as the loop collects them. */
  function GlobalOf(granted: seq<Assignment>): set<string>
  {
    if granted == [] then {}
    else
      var a := granted[|granted| - 1];
      GlobalOf(granted[..|granted| - 1]) + if a.scopeType == GlobalScope then Names(a.permissions) else {}
  }

  /** The scope ids of the assignments of scope type `s`, in the order the
      loop first meets them. */
  function KeysOf(granted: seq<Assignment>, s: ScopeType): seq<Option<Id>>
  {
    if granted == [] then []
    else
      var keys := KeysOf(granted[..|granted| - 1], s);
      var a := granted[|granted| - 1];
      if a.scopeType == s && a.scopeId !in keys then keys + [a.scopeId] else keys
  }

  /** The permissions per scope id of the assignments of scope type `s`. */
  function PermsOf(granted: seq<Assignment>, s: ScopeType): map<Option<Id>, set<string>>
  {
    if granted == [] then map[]
    else
      var m := PermsOf(granted[..|granted| - 1], s);
      var a := granted[|granted| - 1];
      if a.scopeType != s then m
      else m[a.scopeId := (if a.scopeId in m then m[a.scopeId] else {}) + Names(a.permissions)]
  }

  /** A permission is global exactly when some GLOBAL assignment gives it. */
  lemma {:induction false} GlobalOfSpec(granted: seq<Assignment>, p: string)
    ensures p in GlobalOf(granted) <==>
      exists i :: 0 <= i < |granted| && granted[i].scopeType == GlobalScope && p in granted[i].permissions
  {
    if granted != [] {
      var init := granted[..|granted| - 1];
      GlobalOfSpec(init, p);
      if p in GlobalOf(granted) && p !in GlobalOf(init) {
        assert granted[|granted| - 1].scopeType == GlobalScope && p in granted[|granted| - 1].permissions;
      }
      if exists i :: 0 <= i < |granted| && granted[i].scopeType == GlobalScope && p in granted[i].permissions {
        var i :| 0 <= i < |granted| && granted[i].scopeType == GlobalScope && p in granted[i].permissions;
        if i < |init| {
          assert init[i] == granted[i];
        }
      }
    }
  }

  /** The key order lists exactly the scope ids that have an entry. */
  lemma {:induction false} KeysMatch(granted: seq<Assignment>, s: ScopeType, k: Option<Id>)
    ensures k in KeysOf(granted, s) <==> k in PermsOf(granted, s)
  {
    if granted != [] {
      KeysMatch(granted[..|granted| - 1], s, k);
    }
  }

  /** A scope id has an entry exactly when some assignment of that scope
      type names it. */
  lemma {:induction false} PermsOfKeys(granted: seq<Assignment>, s: ScopeType, k: Option<Id>)
    ensures k in PermsOf(granted, s) <==> exists i :: 0 <= i < |granted| && Scoped(granted[i], s, k)
  {
    if granted != [] {
      var init := granted[..|granted| - 1];
      PermsOfKeys(init, s, k);
      if exists i :: 0 <= i < |init| && Scoped(init[i], s, k) {
        var i :| 0 <= i < |init| && Scoped(init[i], s, k);
        assert granted[i] == init[i];
      }
      if exists i :: 0 <= i < |granted| && Scoped(granted[i], s, k) {
        var i :| 0 <= i < |granted| && Scoped(granted[i], s, k);
        if i < |init| {
          assert init[i] == granted[i];
        }
      }
    }
  }

  /** The entry of a scope id holds exactly the permissions the
      assignments naming it give. */
  lemma {:induction false} PermsOfEntry(granted: seq<Assignment>, s: ScopeType, k: Option<Id>, p: string)
    requires k in PermsOf(granted, s)
    ensures p in PermsOf(granted, s)[k] <==>
      exists i :: 0 <= i < |granted| && Scoped(granted[i], s, k) && p in granted[i].permissions
  {
    var init := granted[..|granted| - 1];
    var a := granted[|granted| - 1];
    if k in PermsOf(init, s) {
      PermsOfEntry(init, s, k, p);
    }
    PermsOfKeys(init, s, k);
    assert forall i :: 0 <= i < |init| ==> init[i] == granted[i];
  }

  /** The key order lists no scope id twice. */
  lemma {:induction false} KeysDistinct(granted: seq<Assignment>, s: ScopeType)
    ensures Distinct(KeysOf(granted, s))
  {
    if granted != [] {
      KeysDistinct(granted[..|granted| - 1], s);
    }
  }

  // ---------------------------------------------------------------- issues

  /** Whether the table of known ids holds the key; an absent key is never
      found. */
  predicate Found(known: set<Id>, key: Option<Id>)
  {
    key.Some? && key.value in known
  }

  /** One "non-existent" issue per key the table lacks, in key order. */
  function MissingOf(keys: seq<Option<Id>>, s: ScopeType, known: set<Id>): seq<Issue>
  {
    if keys == [] then []
    else
      var k := keys[|keys| - 1];
      MissingOf(keys[..|keys| - 1], s, known) + if Found(known, k) then [] else [Missing(s, k)]
  }

  /** One redundancy issue per key whose permissions include `perm`. */
  function RedundantOf(keys: seq<Option<Id>>, m: map<Option<Id>, set<string>>, s: ScopeType, perm: string)
    : seq<Issue>
  {
    if keys == [] then []
    else
      var k := keys[|keys| - 1];
      RedundantOf(keys[..|keys| - 1], m, s, perm) + if k in m && perm in m[k] then [Redundant(s)] else []
  }

  /** The "non-existent" issues of one scope are all of that scope. */
  lemma {:induction false} MissingKinds(keys: seq<Option<Id>>, s: ScopeType, known: set<Id>)
    ensures forall x :: x in MissingOf(keys, s, known) ==> x.Missing? && x.scope == s
  {
    if keys != [] {
      MissingKinds(keys[..|keys| - 1], s, known);
    }
  }

  /** The redundancy issues of one scope are all the same issue. */
  lemma {:induction false} RedundantKinds(keys: seq<Option<Id>>, m: map<Option<Id>, set<string>>, s: ScopeType,
                                          perm: string)
    ensures forall x :: x in RedundantOf(keys, m, s, perm) ==> x == Redundant(s)
  {
    if keys != [] {
      RedundantKinds(keys[..|keys| - 1], m, s, perm);
    }
  }

  /** Over distinct keys, each key the table lacks yields exactly one
      "non-existent" issue and every other key none. */
  lemma {:induction false} MissingOnce(keys: seq<Option<Id>>, s: ScopeType, known: set<Id>, k: Option<Id>)
    requires Distinct(keys)
    ensures multiset(MissingOf(keys, s, known))[Missing(s, k)] == if k in keys && !Found(known, k) then 1 else 0
  {
    if keys != [] {
      var init := keys[..|keys| - 1];
      var last := keys[|keys| - 1];
      DistinctInit(keys);
      MissingOnce(init, s, known, k);
      MissingLast(keys, s, known, k);
      assert keys == init + [last];
    }
  }

  /** Dropping the last of distinct keys leaves distinct keys without it. */
  lemma DistinctInit<T>(keys: seq<T>)
    requires keys != [] && Distinct(keys)
    ensures Distinct(keys[..|keys| - 1]) && keys[|keys| - 1] !in keys[..|keys| - 1]
  {
  }

  /** The issue the last key adds, if any. */
  lemma MissingLast(keys: seq<Option<Id>>, s: ScopeType, known: set<Id>, k: Option<Id>)
    requires keys != []
    ensures multiset(MissingOf(keys, s, known))[Missing(s, k)] ==
      multiset(MissingOf(keys[..|keys| - 1], s, known))[Missing(s, k)]
      + if k == keys[|keys| - 1] && !Found(known, k) then 1 else 0
  {
  }

  /** Over distinct keys, there are as many redundancy issues as keys whose
      permissions include `perm`. */
  lemma {:induction false} RedundantCount(keys: seq<Option<Id>>, m: map<Option<Id>, set<string>>, s: ScopeType,
                                          perm: string)
    requires Distinct(keys)
    ensures |RedundantOf(keys, m, s, perm)| == |set k | k in keys && k in m && perm in m[k]|
  {
    if keys != [] {
      var init := keys[..|keys| - 1];
      var last := keys[|keys| - 1];
      DistinctInit(keys);
      RedundantCount(init, m, s, perm);
      var before := set k | k in init && k in m && perm in m[k];
      var after := set k | k in keys && k in m && perm in m[k];
      assert keys == init + [last];
      if last in m && perm in m[last] {
        assert after == before + {last};
      } else {
        assert after == before;
      }
    }
  }

  /** `audit_player` on a known player: the assignments sorted by scope,
      then the issues `_validate_permissions` finds in them. */
  function Audit(player: Id, granted: seq<Assignment>, teams: set<Id>, tournaments: set<Id>): AuditResult
  {
    var global := GlobalOf(granted);
    var teamKeys := KeysOf(granted, TeamScope);
    var team := PermsOf(granted, TeamScope);
    var tournamentKeys := KeysOf(granted, TournamentScope);
    var tournament := PermsOf(granted, TournamentScope);
    AuditResult(player, RoleNames(granted), global, teamKeys, team, tournamentKeys, tournament,
                MissingOf(teamKeys, TeamScope, teams) + MissingOf(tournamentKeys, TournamentScope, tournaments)
                + ConflictsOf(global, teamKeys, team, tournamentKeys, tournament))
  }

  /** `_check_permission_conflicts`: a global `manage_all_teams` makes every
      team's `manage_team` redundant, a global `manage_all_tournaments`
      every tournament's `manage_tournament`. */
  function ConflictsOf(global: set<string>, teamKeys: seq<Option<Id>>, team: map<Option<Id>, set<string>>,
                       tournamentKeys: seq<Option<Id>>, tournament: map<Option<Id>, set<string>>): seq<Issue>
  {
    (if "manage_all_teams" in global then RedundantOf(teamKeys, team, TeamScope, "manage_team") else [])
    + (if "manage_all_tournaments" in global then RedundantOf(tournamentKeys, tournament, TournamentScope,
                                                               "manage_tournament") else [])
  }

  /** In an issue list built from distinct team and tournament keys, each
      key the table lacks is reported once as non-existent. */
  lemma MissingCount(teamKeys: seq<Option<Id>>, tournamentKeys: seq<Option<Id>>, teams: set<Id>,
                     tournaments: set<Id>, conflicts: seq<Issue>, s: ScopeType, k: Option<Id>)
    requires Distinct(teamKeys) && Distinct(tournamentKeys)
    requires forall x :: x in conflicts ==> x.Redundant?
    requires s in {TeamScope, TournamentScope}
    ensures var issues := MissingOf(teamKeys, TeamScope, teams) + MissingOf(tournamentKeys, TournamentScope, tournaments)
                          + conflicts;
      multiset(issues)[Missing(s, k)] ==
        if s == TeamScope then (if k in teamKeys && !Found(teams, k) then 1 else 0)
        else (if k in tournamentKeys && !Found(tournaments, k) then 1 else 0)
  {
    var a := MissingOf(teamKeys, TeamScope, teams);
    var b := MissingOf(tournamentKeys, TournamentScope, tournaments);
    MissingOnce(teamKeys, TeamScope, teams, k);
    MissingOnce(tournamentKeys, TournamentScope, tournaments, k);
    MissingKinds(teamKeys, TeamScope, teams);
    MissingKinds(tournamentKeys, TournamentScope, tournaments);
    assert Missing(s, k) !in conflicts;
    if s == TeamScope {
      assert Missing(s, k) !in b;
    } else {
      assert Missing(s, k) !in a;
    }
    assert multiset(a + b + conflicts) == multiset(a) + multiset(b) + multiset(conflicts);
  }

  /** The audit reports a team once as non-existent exactly when some
      assignment is scoped to it and the teams table lacks it; likewise
      for tournaments. */
  lemma AuditMissing(player: Id, granted: seq<Assignment>, teams: set<Id>, tournaments: set<Id>, s: ScopeType,
                     k: Option<Id>)
    requires s in {TeamScope, TournamentScope}
    ensures multiset(Audit(player, granted, teams, tournaments).issues)[Missing(s, k)] ==
      if (exists i :: 0 <= i < |granted| && Scoped(granted[i], s, k))
         && !Found(if s == TeamScope then teams else tournaments, k) then 1 else 0
  {
    var r := Audit(player, granted, teams, tournaments);
    KeysDistinct(granted, TeamScope);
    KeysDistinct(granted, TournamentScope);
    PermsOfKeys(granted, s, k);
    KeysMatch(granted, s, k);
    RedundantKinds(r.teamKeys, r.team, TeamScope, "manage_team");
    RedundantKinds(r.tournamentKeys, r.tournament, TournamentScope, "manage_tournament");
    MissingCount(r.teamKeys, r.tournamentKeys, teams, tournaments,
                 ConflictsOf(r.global, r.teamKeys, r.team, r.tournamentKeys, r.tournament), s, k);
  }

  /** In an issue list built from distinct team keys, a global
      `manage_all_teams` yields one team redundancy per team set holding
      `manage_team`. */
  lemma RedundantTeamCount(global: set<string>, teamKeys: seq<Option<Id>>, team: map<Option<Id>, set<string>>,
                           tournamentKeys: seq<Option<Id>>, tournament: map<Option<Id>, set<string>>,
                           teams: set<Id>, tournaments: set<Id>)
    requires Distinct(teamKeys)
    ensures var issues := MissingOf(teamKeys, TeamScope, teams) + MissingOf(tournamentKeys, TournamentScope, tournaments)
                          + ConflictsOf(global, teamKeys, team, tournamentKeys, tournament);
      multiset(issues)[Redundant(TeamScope)] ==
        if "manage_all_teams" in global then |set k | k in teamKeys && k in team && "manage_team" in team[k]| else 0
  {
    var x := Redundant(TeamScope);
    var a := MissingOf(teamKeys, TeamScope, teams);
    var b := MissingOf(tournamentKeys, TournamentScope, tournaments);
    var c := if "manage_all_teams" in global then RedundantOf(teamKeys, team, TeamScope, "manage_team") else [];
    var d := if "manage_all_tournaments" in global
      then RedundantOf(tournamentKeys, tournament, TournamentScope, "manage_tournament") else [];
    MissingKinds(teamKeys, TeamScope, teams);
    MissingKinds(tournamentKeys, TournamentScope, tournaments);
    RedundantKinds(teamKeys, team, TeamScope, "manage_team");
    RedundantKinds(tournamentKeys, tournament, TournamentScope, "manage_tournament");
    assert multiset(a + b + (c + d)) == multiset(a) + multiset(b) + multiset(c) + multiset(d);
    assert x !in a && x !in b && x !in d;
    AllSame(c, x);
    if "manage_all_teams" in global {
      RedundantCount(teamKeys, team, TeamScope, "manage_team");
    }
  }

  /** With a global `manage_all_teams`, the audit reports one team
      redundancy per team whose assignments give `manage_team`, and none
      without it. */
  lemma AuditRedundantTeams(player: Id, granted: seq<Assignment>, teams: set<Id>, tournaments: set<Id>)
    ensures var r := Audit(player, granted, teams, tournaments);
      multiset(r.issues)[Redundant(TeamScope)] ==
        if "manage_all_teams" in r.global then |set k | k in r.teamKeys && k in r.team && "manage_team" in r.team[k]|
        else 0
  {
    var r := Audit(player, granted, teams, tournaments);
    KeysDistinct(granted, TeamScope);
    RedundantTeamCount(r.global, r.teamKeys, r.team, r.tournamentKeys, r.tournament, teams, tournaments);
  }

  /** A sequence of one repeated value holds it as often as its length. */
  lemma {:induction false} AllSame<T>(s: seq<T>, x: T)
    requires forall y :: y in s ==> y == x
    ensures multiset(s)[x] == |s|
  {
    if s != [] {
      assert forall y :: y in s[1..] ==> y in s;
      AllSame(s[1..], x);
      assert s == [s[0]] + s[1..] && s[0] in s;
      assert multiset(s) == multiset{s[0]} + multiset(s[1..]);
    }
  }

  // ---------------------------------------------------------------- the auditor

  /** The lookups a cache remembers agree with the table they stand for. */
  predicate Sound(cache: map<Option<Id>, bool>, known: set<Id>)
  {
    forall k :: k in cache ==> cache[k] == Found(known, k)
  }

  /** `PermissionAuditor` over fixed players, role assignments, teams and
      tournaments tables, with its two existence caches. */
  class PermissionAuditor {
    const players: seq<Id>
    const rolesOf: map<Id, seq<Assignment>>
    const teams: set<Id>
    const tournaments: set<Id>
    var teamCache: map<Option<Id>, bool>
    var tournamentCache: map<Option<Id>, bool>

    /** The caches only remember what the tables say. */
    predicate Valid()
      reads this
    {
      Sound(teamCache, teams) && Sound(tournamentCache, tournaments)
    }

    constructor (players: seq<Id>, rolesOf: map<Id, seq<Assignment>>, teams: set<Id>, tournaments: set<Id>)
      ensures this.players == players && this.rolesOf == rolesOf
      ensures this.teams == teams && this.tournaments == tournaments
      ensures teamCache == map[] && tournamentCache == map[]
      ensures Valid()
    {
      this.players := players;
      this.rolesOf := rolesOf;
      this.teams := teams;
      this.tournaments := tournaments;
      teamCache := map[];
      tournamentCache := map[];
    }

    /** `get_player_roles`: a player without assignments has none. */
    function RolesOf(player: Id): seq<Assignment>
    {
      if player in rolesOf then rolesOf[player] else []
    }

    /** `_team_exists` (s = TeamScope) and `_tournament_exists`: a key the
        cache holds is answered from it without a lookup; otherwise the
        table is asked and the answer remembered. */
    method Exists(s: ScopeType, key: Option<Id>) returns (b: bool)
      requires Valid() && s != GlobalScope
      modifies this`teamCache, this`tournamentCache
      ensures Valid()
      ensures b == Found(if s == TeamScope then teams else tournaments, key)
      ensures s == TeamScope ==> teamCache == old(teamCache)[key := b] && tournamentCache == old(tournamentCache)
      ensures s == TournamentScope ==>
        tournamentCache == old(tournamentCache)[key := b] && teamCache == old(teamCache)
      ensures s == TeamScope && key in old(teamCache) ==> b == old(teamCache)[key] && teamCache == old(teamCache)
      ensures s == TournamentScope && key in old(tournamentCache) ==>
        b == old(tournamentCache)[key] && tournamentCache == old(tournamentCache)
    {
      if s == TeamScope {
        if key !in teamCache {
          teamCache := teamCache[key := key.Some? && key.value in teams];
        }
        b := teamCache[key];
      } else {
        if key !in tournamentCache {
          tournamentCache := tournamentCache[key := key.Some? && key.value in tournaments];
        }
        b := tournamentCache[key];
      }
    }

    /** The existence loop of `_validate_permissions` for one scope: one
        "non-existent" issue per key the table lacks, in key order. */
    method MissingIssues(keys: seq<Option<Id>>, s: ScopeType) returns (issues: seq<Issue>)
      requires Valid() && s != GlobalScope
      modifies this`teamCache, this`tournamentCache
      ensures Valid()
      ensures issues == MissingOf(keys, s, if s == TeamScope then teams else tournaments)
    {
      issues := [];
      var i := 0;
      while i < |keys|
        invariant 0 <= i <= |keys| && Valid()
        invariant issues == MissingOf(keys[..i], s, if s == TeamScope then teams else tournaments)
      {
        var found := Exists(s, keys[i]);
        if !found {
          issues := issues + [Missing(s, keys[i])];
        }
        assert keys[..i + 1][..i] == keys[..i];
        i := i + 1;
      }
      assert keys[..i] == keys;
    }

    /** One redundancy loop of `_check_permission_conflicts`. */
    method RedundantIssues(keys: seq<Option<Id>>, m: map<Option<Id>, set<string>>, s: ScopeType, perm: string)
      returns (issues: seq<Issue>)
      ensures issues == RedundantOf(keys, m, s, perm)
    {
      issues := [];
      var i := 0;
      while i < |keys|
        invariant 0 <= i <= |keys|
        invariant issues == RedundantOf(keys[..i], m, s, perm)
      {
        if keys[i] in m && perm in m[keys[i]] {
          issues := issues + [Redundant(s)];
        }
        assert keys[..i + 1][..i] == keys[..i];
        i := i + 1;
      }
      assert keys[..i] == keys;
    }

    /** The classification loop of `audit_player`: each assignment's
        permissions go to the global set or to its team's or tournament's
        set according to its scope type. */
    method Classify(granted: seq<Assignment>)
      returns (roles: seq<string>, global: set<string>, teamKeys: seq<Option<Id>>, team: map<Option<Id>, set<string>>,
               tournamentKeys: seq<Option<Id>>, tournament: map<Option<Id>, set<string>>)
      ensures roles == RoleNames(granted) && global == GlobalOf(granted)
      ensures teamKeys == KeysOf(granted, TeamScope) && team == PermsOf(granted, TeamScope)
      ensures tournamentKeys == KeysOf(granted, TournamentScope) && tournament == PermsOf(granted, TournamentScope)
    {
      roles, global, teamKeys, team, tournamentKeys, tournament := [], {}, [], map[], [], map[];
      var i := 0;
      while i < |granted|
        invariant 0 <= i <= |granted|
        invariant roles == RoleNames(granted[..i]) && global == GlobalOf(granted[..i])
        invariant teamKeys == KeysOf(granted[..i], TeamScope) && team == PermsOf(granted[..i], TeamScope)
        invariant tournamentKeys == KeysOf(granted[..i], TournamentScope)
        invariant tournament == PermsOf(granted[..i], TournamentScope)
      {
        var a := granted[i];
        assert granted[..i + 1][..i] == granted[..i] && granted[..i + 1][i] == a;
        roles := roles + [a.role];
        var names := Names(a.permissions);
        match a.scopeType {
          case GlobalScope =>
            global := global + names;
          case TeamScope =>
            KeysMatch(granted[..i], TeamScope, a.scopeId);
            if a.scopeId !in team {
              teamKeys := teamKeys + [a.scopeId];
              team := team[a.scopeId := {}];
            }
            team := team[a.scopeId := team[a.scopeId] + names];
          case TournamentScope =>
            KeysMatch(granted[..i], TournamentScope, a.scopeId);
            if a.scopeId !in tournament {
              tournamentKeys := tournamentKeys + [a.scopeId];
              tournament := tournament[a.scopeId := {}];
            }
            tournament := tournament[a.scopeId := tournament[a.scopeId] + names];
        }
        i := i + 1;
      }
      assert granted[..i] == granted;
    }

    /** `audit_player`: an unknown player is refused; otherwise the audit
        of the player's granted against the teams and tournaments
        tables. */
    method AuditPlayer(player: Id) returns (r: Result<AuditResult, AuditError>)
      requires Valid()
      modifies this`teamCache, this`tournamentCache
      ensures Valid()
      ensures player !in players ==> r == Err(PlayerNotFound)
      ensures player in players ==> r == Ok(Audit(player, RolesOf(player), teams, tournaments))
    {
      if player !in players {
        return Err(PlayerNotFound);
      }
      var roles, global, teamKeys, team, tournamentKeys, tournament := Classify(RolesOf(player));
      var missingTeams := MissingIssues(teamKeys, TeamScope);
      var missingTournaments := MissingIssues(tournamentKeys, TournamentScope);
      var conflicts: seq<Issue> := [];
      if "manage_all_teams" in global {
        conflicts := RedundantIssues(teamKeys, team, TeamScope, "manage_team");
      }
      if "manage_all_tournaments" in global {
        var more := RedundantIssues(tournamentKeys, tournament, TournamentScope, "manage_tournament");
        conflicts := conflicts + more;
      }
      assert conflicts == ConflictsOf(global, teamKeys, team, tournamentKeys, tournament);
      r := Ok(AuditResult(player, roles, global, teamKeys, team, tournamentKeys, tournament,
                          missingTeams + missingTournaments + conflicts));
    }

    /** The audits of the given players, in order. */
    function AuditsOf(ids: seq<Id>): (r: seq<AuditResult>)
      ensures |r| == |ids|
    {
      if ids == [] then []
      else AuditsOf(ids[..|ids| - 1]) + [Audit(ids[|ids| - 1], RolesOf(ids[|ids| - 1]), teams, tournaments)]
    }

    /** The `i`-th audit is the audit of the `i`-th player. */
    lemma {:induction false} AuditsOfAt(ids: seq<Id>, i: nat)
      requires i < |ids|
      ensures AuditsOf(ids)[i] == Audit(ids[i], RolesOf(ids[i]), teams, tournaments)
    {
      if i < |ids| - 1 {
        AuditsOfAt(ids[..|ids| - 1], i);
      }
    }

    /** `audit_all_players`: one audit per player of the players table, in
        table order. */
    method AuditAllPlayers() returns (results: seq<AuditResult>)
      requires Valid()
      modifies this`teamCache, this`tournamentCache
      ensures Valid()
      ensures results == AuditsOf(players)
    {
      results := [];
      var i := 0;
      while i < |players|
        invariant 0 <= i <= |players| && Valid()
        invariant results == AuditsOf(players[..i])
      {
        var r := AuditPlayer(players[i]);
        assert players[..i + 1][..i] == players[..i];
        results := results + [r.value];
        i := i + 1;
      }
      assert players[..i] == players;
    }
  }
}
