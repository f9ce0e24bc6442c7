/** The map pick/ban lobby of a match: a picker model holding the map pool
    and the lists of picked and banned maps, a state machine whose states
    and transitions are the BO1 and BO3 tables handed to the state-machine
    library, the two teams' connection lists, and the per-connection
    sequence-number rule.

    Two versions of the machine exist: the current one and an older one
    whose triggers carry the acting team in their names ("team_1_ban_map").
    One class models both; `Variant` says which version it runs, and every
    place where the two differ branches on it. */
module MapPicker {
  import opened Common

  datatype Side = CounterTerrorists | Terrorists | KnifeForSides

  /** What happened to a map: nothing yet, banned by a team, picked by a
      team. */
  datatype MapState = Untouched | Team1Banned | Team2Banned | Team1Picked | Team2Picked

  /** A map of the pool: its name, its state, the side chosen on it and the
      side left to the opponent. */
  datatype PoolMap = PoolMap(name: string, state: MapState, side: Option<Side>, oppoSide: Option<Side>)

  function Names(ms: seq<PoolMap>): seq<string>
  {
    seq(|ms|, i requires 0 <= i < |ms| => ms[i].name)
  }

  predicate Distinct<T(==)>(s: seq<T>)
  {
    forall i, j :: 0 <= i < j < |s| ==> s[i] != s[j]
  }

  /** `list.remove` of the element at place `i`. */
  function Remove<T>(s: seq<T>, i: nat): seq<T>
    requires i < |s|
  {
    s[..i] + s[i + 1..]
  }

  // ---------------------------------------------------------------------
  // Sequence facts used by the picker invariant
  // ---------------------------------------------------------------------

  lemma NamesAppend(a: seq<PoolMap>, b: seq<PoolMap>)
    ensures Names(a + b) == Names(a) + Names(b)
  {
  }

  /** Removing the map at place `i` removes its name from the names. */
  lemma NamesRemove(p: seq<PoolMap>, i: nat)
    requires i < |p|
    ensures multiset(Names(Remove(p, i))) + multiset{p[i].name} == multiset(Names(p))
  {
    assert p == p[..i] + [p[i]] + p[i + 1..];
    NamesAppend(p[..i] + [p[i]], p[i + 1..]);
    NamesAppend(p[..i], [p[i]]);
    NamesAppend(p[..i], p[i + 1..]);
  }

  /** The names of three lists together, counted. */
  lemma NamesOfThree(a: seq<PoolMap>, b: seq<PoolMap>, c: seq<PoolMap>)
    ensures multiset(Names(a + b + c)) == multiset(Names(a)) + multiset(Names(b)) + multiset(Names(c))
  {
    NamesAppend(a, b);
    NamesAppend(a + b, c);
  }

  /** Moving map `i` of `p` to the end of `q` (renaming nothing) keeps the
      names of the three lists, `q` being second. */
  lemma MoveKeepsNames(p: seq<PoolMap>, q: seq<PoolMap>, other: seq<PoolMap>, i: nat, m: PoolMap)
    requires i < |p| && m.name == p[i].name
    ensures multiset(Names(Remove(p, i) + (q + [m]) + other)) == multiset(Names(p + q + other))
  {
    NamesRemove(p, i);
    NamesAppend(q, [m]);
    NamesOfThree(Remove(p, i), q + [m], other);
    NamesOfThree(p, q, other);
  }

  /** The same, `q` being third. */
  lemma MoveKeepsNamesLast(p: seq<PoolMap>, q: seq<PoolMap>, other: seq<PoolMap>, i: nat, m: PoolMap)
    requires i < |p| && m.name == p[i].name
    ensures multiset(Names(Remove(p, i) + other + (q + [m]))) == multiset(Names(p + other + q))
  {
    NamesRemove(p, i);
    NamesAppend(q, [m]);
    NamesOfThree(Remove(p, i), other, q + [m]);
    NamesOfThree(p, other, q);
  }

  /** A sequence without repetitions holds each value at most once. */
  lemma {:induction false} AtMostOnce<T>(t: seq<T>, x: T)
    requires Distinct(t)
    ensures multiset(t)[x] <= 1
  {
    if t != [] {
      assert t == [t[0]] + t[1..];
      assert Distinct(t[1..]) by {
        forall i, j | 0 <= i < j < |t[1..]| ensures t[1..][i] != t[1..][j] {
          assert t[i + 1] != t[j + 1];
        }
      }
      AtMostOnce(t[1..], x);
      if x == t[0] {
        assert x !in t[1..] by {
          forall k | 0 <= k < |t[1..]| ensures t[1..][k] != x {
            assert t[0] != t[k + 1];
          }
        }
      }
    }
  }

  /** A value found at two places is counted twice. */
  lemma Twice<T>(s: seq<T>, i: nat, j: nat)
    requires i < j < |s| && s[i] == s[j]
    ensures multiset(s)[s[i]] >= 2
  {
    assert s == s[..j] + [s[j]] + s[j + 1..];
    assert s[..j][i] == s[i];
    assert s[i] in multiset(s[..j]);
  }

  /** A permutation of a sequence without repetitions has none either. */
  lemma DistinctByCount<T>(s: seq<T>, t: seq<T>)
    requires multiset(s) == multiset(t) && Distinct(t)
    ensures Distinct(s)
  {
    forall i, j | 0 <= i < j < |s|
      ensures s[i] != s[j]
    {
      if s[i] == s[j] {
        Twice(s, i, j);
        AtMostOnce(t, s[i]);
        assert false;
      }
    }
  }

  /** The places of the maps named `name`, in pool order: the list the
      lookup builds. */
  function Matches(pool: seq<PoolMap>, name: string): (r: seq<nat>)
    ensures forall k :: 0 <= k < |r| ==> r[k] < |pool| && pool[r[k]].name == name
    ensures forall i :: 0 <= i < |pool| && pool[i].name == name ==> i in r
    ensures forall k, l :: 0 <= k < l < |r| ==> r[k] < r[l]
  {
    if pool == [] then []
    else
      var front := Matches(pool[..|pool| - 1], name);
      assert forall i :: 0 <= i < |pool| - 1 ==> pool[..|pool| - 1][i] == pool[i];
      if pool[|pool| - 1].name == name then front + [|pool| - 1] else front
  }

  /** Map `i` is the one map of the pool with its name. */
  predicate OnlyNamed(pool: seq<PoolMap>, name: string, i: nat)
  {
    i < |pool| && pool[i].name == name && forall j :: 0 <= j < |pool| && pool[j].name == name ==> j == i
  }

  /** `get_map_by_name` as intended: the place of the only map of the pool
      named `name`; nothing when no map or several maps have that name. */
  function MapIndex(pool: seq<PoolMap>, name: string): (r: Option<nat>)
    ensures r.Some? <==> exists i :: OnlyNamed(pool, name, i)
    ensures r.Some? ==> OnlyNamed(pool, name, r.value)
  {
    var m := Matches(pool, name);
    if |m| == 1 then
      assert forall j :: 0 <= j < |pool| && pool[j].name == name ==> j == m[0] by {
        forall j | 0 <= j < |pool| && pool[j].name == name ensures j == m[0] {
          assert j in m;
        }
      }
      assert OnlyNamed(pool, name, m[0]);
      Some(m[0])
    else if |m| == 0 then
      assert forall i :: 0 <= i < |pool| ==> pool[i].name != name;
      None
    else
      assert m[0] < m[1] && pool[m[0]].name == name && pool[m[1]].name == name;
      None
  }

  /** In a pool whose names do not repeat, the lookup finds every map by its
      name. */
  lemma FoundByName(pool: seq<PoolMap>, i: nat)
    requires Distinct(Names(pool)) && i < |pool|
    ensures MapIndex(pool, pool[i].name) == Some(i)
  {
    forall j | 0 <= j < |pool| && j != i
      ensures pool[j].name != pool[i].name
    {
      if j < i {
        assert Names(pool)[j] != Names(pool)[i];
      } else {
        assert Names(pool)[i] != Names(pool)[j];
      }
    }
    assert OnlyNamed(pool, pool[i].name, i);
  }

  /** The error `get_map_by_name` raises as written. */
  datatype LookupError = TypeError

  /** `get_map_by_name` as written: the length is taken of the boolean
      `map != 1` rather than of the list of matches, which raises whatever
      the pool holds. */
  function MapByNameAsWritten(pool: seq<PoolMap>, name: string): (r: Result<PoolMap, LookupError>)
    ensures r.Err?
  {
    Err(TypeError)
  }

  /** A one-map pool shows the difference: the intended lookup finds the
      map, the written one raises. */
  lemma LookupOfOnlyMapAsWritten(m: PoolMap)
    ensures MapIndex([m], m.name) == Some(0)
    ensures MapByNameAsWritten([m], m.name).Err?
  {
    FoundByName([m], 0);
  }

  // ---------------------------------------------------------------------
  // The picker model
  // ---------------------------------------------------------------------

  /** `MapPickerModel`: the pool still open, the original pool kept for a
      reset, the two team names, the team whose turn it is to ban, and the
      picked and banned lists. */
  class PickerModel {
    var pool: seq<PoolMap>
    const original: seq<PoolMap>
    const team1: string
    const team2: string
    var currentTeam: string
    var picked: seq<PoolMap>
    var banned: seq<PoolMap>
    var finalized: bool

    /** Every map of the original pool is in exactly one of the three
        lists, map names do not repeat, the turn is one of the two teams',
        and a finalized picker has no map left in the pool. */
    ghost predicate Valid()
      reads this
    {
      && Distinct(Names(original))
      && multiset(Names(pool + picked + banned)) == multiset(Names(original))
      && (currentTeam == team1 || currentTeam == team2)
      && (finalized ==> pool == [])
    }

    /** The pool given has maps of distinct names. */
    constructor (maps: seq<PoolMap>, t1: string, t2: string)
      requires Distinct(Names(maps))
      ensures pool == maps && original == maps && team1 == t1 && team2 == t2
      ensures currentTeam == t1 && picked == [] && banned == [] && !finalized
      ensures Valid()
    {
      pool := maps;
      original := maps;
      team1 := t1;
      team2 := t2;
      currentTeam := t1;
      picked := [];
      banned := [];
      finalized := false;
      NamesAppend(maps, []);
      NamesAppend(maps + [], []);
    }

    /** `get_picker_state`: the open maps, then the picked, then the
        banned. */
    function PickerState(): seq<PoolMap>
      reads this
    {
      pool + picked + banned
    }

    /** `reset_picks_bans`. */
    method ResetPicksBans()
      requires Valid()
      modifies this
      ensures pool == original && currentTeam == team1 && picked == [] && banned == [] && !finalized
      ensures Valid()
    {
      pool := original;
      currentTeam := team1;
      picked := [];
      banned := [];
      finalized := false;
      NamesAppend(original, []);
      NamesAppend(original + [], []);
    }

    /** `ban_map`: the map of that name leaves the pool and joins the banned
        list, tagged with `tag`. The caller has checked the name is in the
        pool. */
    method BanMap(name: string, tag: MapState)
      requires Valid() && name in Names(pool)
      modifies this
      ensures MapIndex(old(pool), name).Some?
      ensures pool == Remove(old(pool), MapIndex(old(pool), name).value)
      ensures banned == old(banned) + [old(pool)[MapIndex(old(pool), name).value].(state := tag)]
      ensures picked == old(picked) && currentTeam == old(currentTeam) && finalized == old(finalized)
      ensures Valid()
    {
      var i := Locate(name);
      var m := pool[i].(state := tag);
      MoveKeepsNamesLast(pool, banned, picked, i, m);
      pool := Remove(pool, i);
      banned := banned + [m];
    }

    /** `process_pick`: the map of that name leaves the pool and joins the
        picked list, tagged with `tag`; its side is chosen later. */
    method Pick(name: string, tag: MapState)
      requires Valid() && name in Names(pool)
      modifies this
      ensures MapIndex(old(pool), name).Some?
      ensures pool == Remove(old(pool), MapIndex(old(pool), name).value)
      ensures picked == old(picked) + [old(pool)[MapIndex(old(pool), name).value].(state := tag)]
      ensures banned == old(banned) && currentTeam == old(currentTeam) && finalized == old(finalized)
      ensures Valid()
    {
      var i := Locate(name);
      var m := pool[i].(state := tag);
      MoveKeepsNames(pool, picked, banned, i, m);
      pool := Remove(pool, i);
      picked := picked + [m];
    }

    /** The place of a pool map by its name: names in the pool do not
        repeat, so the intended lookup always finds it. */
    method Locate(name: string) returns (i: nat)
      requires Valid() && name in Names(pool)
      ensures MapIndex(pool, name) == Some(i)
    {
      NamesAppend(pool, picked);
      NamesAppend(pool + picked, banned);
      DistinctByCount(Names(pool + picked + banned), Names(original));
      assert Distinct(Names(pool)) by {
        forall a, b | 0 <= a < b < |Names(pool)| ensures Names(pool)[a] != Names(pool)[b] {
          assert Names(pool + picked + banned)[a] == Names(pool)[a];
          assert Names(pool + picked + banned)[b] == Names(pool)[b];
        }
      }
      var k :| 0 <= k < |pool| && Names(pool)[k] == name;
      FoundByName(pool, k);
      i := k;
    }

    /** `record_side`: the last picked map gets the side chosen. */
    method RecordSide(side: Side)
      requires Valid() && picked != []
      modifies this
      ensures picked == old(picked)[..|old(picked)| - 1] + [old(picked)[|old(picked)| - 1].(side := Some(side))]
      ensures pool == old(pool) && banned == old(banned) && currentTeam == old(currentTeam) && finalized == old(finalized)
      ensures Valid()
    {
      var last := |picked| - 1;
      var updated := picked[..last] + [picked[last].(side := Some(side))];
      assert Names(updated) == Names(picked);
      NamesAppend(pool, picked);
      NamesAppend(pool + picked, banned);
      NamesAppend(pool, updated);
      NamesAppend(pool + updated, banned);
      picked := updated;
    }

    /** `finalize_map`: with one map left, that map becomes the decider,
        with the knife round for sides, and the picker is finalized. */
    method FinalizeMap()
      requires Valid() && |pool| == 1
      modifies this
      ensures finalized && pool == []
      ensures picked == old(picked) + [old(pool)[0].(oppoSide := Some(KnifeForSides))]
      ensures banned == old(banned) && currentTeam == old(currentTeam)
      ensures Valid()
    {
      var m := pool[0].(oppoSide := Some(KnifeForSides));
      MoveKeepsNames(pool, picked, banned, 0, m);
      assert Remove(pool, 0) == [];
      finalized := true;
      pool := [];
      picked := picked + [m];
    }
  }

  /** The three lists of a valid picker are the original pool rearranged,
      and no map appears twice among them. */
  lemma PickerStateIsPermutation(p: PickerModel)
    requires p.Valid()
    ensures multiset(Names(p.PickerState())) == multiset(Names(p.original))
    ensures Distinct(Names(p.PickerState()))
    ensures |p.pool| + |p.picked| + |p.banned| == |p.original|
  {
    DistinctByCount(Names(p.PickerState()), Names(p.original));
    assert |multiset(Names(p.PickerState()))| == |p.PickerState()|;
  }

  // ---------------------------------------------------------------------
  // The state machine
  // ---------------------------------------------------------------------

  datatype Mode = BestOfOne | BestOfThree

  /** Which version of the machine: the current one or the older one. */
  datatype Variant = Current | Legacy

  /** The leaf states of the machine. The BO1 table's states are
      waiting_for_team_1, waiting_for_team_2 and final_map (team_1_ban,
      team_2_ban and final_map in the older version); the BO3 table's are
      team_1_pick, team_2_pick_side, team_2_pick, team_1_pick_side (and
      their older names) followed by the BO1 table nested as the banning
      phase, whose final map is remapped to `done`. */
  datatype Phase =
    | Ready
    | Team1Pick | Team2PickSide | Team2Pick | Team1PickSide
    | WaitingForTeam1 | WaitingForTeam2
    | FinalMap
    | Done

  /** The prefix of a trigger's name: `ban_map` carries none, the older
      `team_1_ban_map` and `team_2_ban_map` carry the team. */
  datatype TriggerTeam = Unprefixed | Team1 | Team2

  /** A trigger that fired, or one whose conditions were false: the library
      then reports failure and changes nothing. */
  datatype Fire = Fired | Refused

  /** `MachineError` for a trigger the current state does not declare, and
      the error of a transition to a state the machine does not have. */
  datatype MachineError = InvalidTrigger | UnregisteredState

  /** A websocket connection. */
  type Conn = nat

  /** Where a ban trigger leads from `phase`, if the table declares it
      there. */
  function BanTarget(variant: Variant, phase: Phase, t: TriggerTeam): Option<Phase>
  {
    match (variant, phase, t)
    case (Current, WaitingForTeam1, Unprefixed) => Some(WaitingForTeam2)
    case (Current, WaitingForTeam2, Unprefixed) => Some(WaitingForTeam1)
    case (Legacy, WaitingForTeam1, Team1) => Some(WaitingForTeam2)
    case (Legacy, WaitingForTeam2, Team2) => Some(WaitingForTeam1)
    case _ => None
  }

  /** Where a pick trigger leads from `phase`, if the table declares it
      there. */
  function PickTarget(variant: Variant, phase: Phase, t: TriggerTeam): Option<Phase>
  {
    match (variant, phase, t)
    case (Current, Team1Pick, Unprefixed) => Some(Team2PickSide)
    case (Current, Team2Pick, Unprefixed) => Some(Team1PickSide)
    case (Legacy, Team1Pick, Team1) => Some(Team2PickSide)
    case (Legacy, Team2Pick, Team2) => Some(Team1PickSide)
    case _ => None
  }

  /** Where a side trigger leads from `phase`, if the table declares it
      there; choosing team 1's side enters the banning phase. */
  function SideTarget(variant: Variant, phase: Phase, t: TriggerTeam): Option<Phase>
  {
    match (variant, phase, t)
    case (Current, Team2PickSide, Unprefixed) => Some(Team2Pick)
    case (Current, Team1PickSide, Unprefixed) => Some(WaitingForTeam1)
    case (Legacy, Team2PickSide, Team2) => Some(Team2Pick)
    case (Legacy, Team1PickSide, Team1) => Some(WaitingForTeam1)
    case _ => None
  }

  /** The state the last ban leads to: `final_map` of BO1, which the BO3
      table remaps to `done`. */
  function FinalPhase(mode: Mode): Phase
  {
    if mode == BestOfThree then Done else FinalMap
  }

  /** The ban tag of the team whose turn it is. */
  function BanTag(current: string, team1: string): MapState
  {
    if current == team1 then Team1Banned else Team2Banned
  }

  /** The tag of a pick, by the state it is made in. */
  function PickTag(phase: Phase): MapState
  {
    if phase == Team1Pick then Team1Picked else Team2Picked
  }

  // ---------------------------------------------------------------------
  // Teams
  // ---------------------------------------------------------------------

  /** `get_team_idx_by_team`: the first of the two teams with that name. */
  function TeamIndex(names: seq<string>, name: string): (r: Option<nat>)
    requires |names| == 2
    ensures r.Some? <==> name in names
    ensures r.Some? ==> r.value < 2 && names[r.value] == name && (r.value == 1 ==> names[0] != name)
  {
    if names[0] == name then Some(0) else if names[1] == name then Some(1) else None
  }

  /** `get_team_for_ws`: the first team whose players include `c`. */
  function TeamOf(rosters: seq<seq<Conn>>, c: Conn): (r: Option<nat>)
    requires |rosters| == 2
    ensures r.Some? <==> c in rosters[0] || c in rosters[1]
    ensures r.Some? ==> r.value < 2 && c in rosters[r.value] && (r.value == 1 ==> c !in rosters[0])
  {
    if c in rosters[0] then Some(0) else if c in rosters[1] then Some(1) else None
  }

  /** Two player lists, no connection listed twice, in one list or across
      both. */
  predicate OnOneTeam(rosters: seq<seq<Conn>>)
  {
    |rosters| == 2 && Distinct(rosters[0] + rosters[1])
  }

  /** `process_join_team` as intended (and as the older version does it): a
      connection already on a team is refused, an unknown team name too;
      otherwise the connection is appended to the team of that name. */
  function Joined(rosters: seq<seq<Conn>>, names: seq<string>, c: Conn, name: string): seq<seq<Conn>>
    requires |rosters| == 2 && |names| == 2
  {
    if TeamOf(rosters, c).Some? then rosters
    else match TeamIndex(names, name)
      case None => rosters
      case Some(i) => rosters[i := rosters[i] + [c]]
  }

  /** `process_join_team` as the current version writes it: the truth test
      of the team index takes index 0, team 1, for "not found". */
  function JoinedAsWritten(rosters: seq<seq<Conn>>, names: seq<string>, c: Conn, name: string): seq<seq<Conn>>
    requires |rosters| == 2 && |names| == 2
  {
    if TeamOf(rosters, c).Some? then rosters
    else match TeamIndex(names, name)
      case None => rosters
      case Some(i) => if i == 0 then rosters else rosters[i := rosters[i] + [c]]
  }

  lemma DistinctSplit(a: seq<Conn>, b: seq<Conn>)
    ensures Distinct(a + b) <==> Distinct(a) && Distinct(b) && forall x :: x in a ==> x !in b
  {
    if Distinct(a + b) {
      forall i, j | 0 <= i < j < |b| ensures b[i] != b[j] {
        assert (a + b)[|a| + i] == b[i] && (a + b)[|a| + j] == b[j];
      }
      forall i, j | 0 <= i < |a| && 0 <= j < |b| ensures a[i] != b[j] {
        assert (a + b)[i] == a[i] && (a + b)[|a| + j] == b[j];
      }
      forall i, j | 0 <= i < j < |a| ensures a[i] != a[j] {
        assert (a + b)[i] == a[i] && (a + b)[j] == a[j];
      }
    }
    if Distinct(a) && Distinct(b) && forall x :: x in a ==> x !in b {
      forall i, j | 0 <= i < j < |a + b| ensures (a + b)[i] != (a + b)[j] {
        if j < |a| {
        } else if i >= |a| {
          assert (a + b)[i] == b[i - |a|] && (a + b)[j] == b[j - |a|];
        } else {
          assert (a + b)[i] in a && (a + b)[j] in b;
        }
      }
    }
  }

  /** Appending a connection listed nowhere keeps the lists free of
      repetitions. */
  lemma AppendFresh(s: seq<Conn>, c: Conn)
    requires Distinct(s) && c !in s
    ensures Distinct(s + [c])
  {
    DistinctSplit(s, [c]);
  }

  /** Joining keeps every connection on at most one team; it places a
      connection on no team yet in the first team of the name asked for,
      leaves the lists unchanged otherwise, and moves nobody else. */
  lemma JoinedKeepsTeams(rosters: seq<seq<Conn>>, names: seq<string>, c: Conn, name: string)
    requires OnOneTeam(rosters) && |names| == 2
    ensures OnOneTeam(Joined(rosters, names, c, name))
    ensures TeamOf(rosters, c).None? && name in names ==> TeamOf(Joined(rosters, names, c, name), c) == TeamIndex(names, name)
    ensures TeamOf(rosters, c).Some? || name !in names ==> Joined(rosters, names, c, name) == rosters
    ensures forall d :: d != c ==> TeamOf(Joined(rosters, names, c, name), d) == TeamOf(rosters, d)
  {
    var r := Joined(rosters, names, c, name);
    DistinctSplit(rosters[0], rosters[1]);
    if TeamOf(rosters, c).None? && name in names {
      var i := TeamIndex(names, name).value;
      AppendFresh(rosters[i], c);
      DistinctSplit(r[0], r[1]);
    }
  }

  /** Joining team 1 by its name shows the difference: as written the
      connection stays on no team, as intended it is on team 1. */
  lemma JoinFirstTeamAsWritten(names: seq<string>, c: Conn)
    requires |names| == 2
    ensures JoinedAsWritten([[], []], names, c, names[0]) == [[], []]
    ensures Joined([[], []], names, c, names[0]) == [[c], []]
  {
    assert [] + [c] == [c];
  }

  /** The place of the first `c` in `s`. */
  function FirstPlace(s: seq<Conn>, c: Conn): (i: nat)
    requires c in s
    ensures i < |s| && s[i] == c && c !in s[..i]
  {
    if s[0] == c then 0 else 1 + FirstPlace(s[1..], c)
  }

  /** `process_switch_teams`: a connection on no team stays so; otherwise it
      leaves its team's list and is appended to the list of the other
      index than the first team bearing its team's name. */
  function Switched(rosters: seq<seq<Conn>>, names: seq<string>, c: Conn): seq<seq<Conn>>
    requires |rosters| == 2 && |names| == 2
  {
    match TeamOf(rosters, c)
    case None => rosters
    case Some(t) =>
      var left := rosters[t := Remove(rosters[t], FirstPlace(rosters[t], c))];
      var to := 1 - TeamIndex(names, names[t]).value;
      left[to := left[to] + [c]]
  }

  /** Removing one place of a list without repetitions removes exactly that
      value. */
  lemma RemoveDistinct(s: seq<Conn>, i: nat)
    requires Distinct(s) && i < |s|
    ensures Distinct(Remove(s, i))
    ensures forall x :: x in Remove(s, i) <==> x in s && x != s[i]
  {
    DistinctSplit(s[..i], s[i + 1..]);
    DistinctSplit(s[..i], [s[i]] + s[i + 1..]);
    DistinctSplit([s[i]], s[i + 1..]);
    assert s == s[..i] + ([s[i]] + s[i + 1..]);
  }

  /** Switching keeps every connection on at most one team and moves nobody
      else; when the two team names differ, the connection ends on the
      other team. */
  lemma SwitchedKeepsTeams(rosters: seq<seq<Conn>>, names: seq<string>, c: Conn)
    requires OnOneTeam(rosters) && |names| == 2
    ensures OnOneTeam(Switched(rosters, names, c))
    ensures TeamOf(rosters, c).None? ==> Switched(rosters, names, c) == rosters
    ensures TeamOf(rosters, c).Some? && names[0] != names[1] ==>
      TeamOf(Switched(rosters, names, c), c) == Some(1 - TeamOf(rosters, c).value)
    ensures forall d :: d != c ==> TeamOf(Switched(rosters, names, c), d) == TeamOf(rosters, d)
  {
    DistinctSplit(rosters[0], rosters[1]);
    if TeamOf(rosters, c).Some? {
      var t := TeamOf(rosters, c).value;
      var i := FirstPlace(rosters[t], c);
      var left := rosters[t := Remove(rosters[t], i)];
      RemoveDistinct(rosters[t], i);
      var to := 1 - TeamIndex(names, names[t]).value;
      assert c !in left[0] && c !in left[1];
      AppendFresh(left[to], c);
      var r := Switched(rosters, names, c);
      assert r == left[to := left[to] + [c]];
      DistinctSplit(r[0], r[1]);
    }
  }

  // ---------------------------------------------------------------------
  // The lobby machine
  // ---------------------------------------------------------------------

  /** `WebSocketStateMachine`: the picker model, the table in use, the
      current state and the two teams with their player lists. */
  class PickerMachine {
    const model: PickerModel
    const mode: Mode
    const variant: Variant
    var phase: Phase
    /** The two team names, team 1's first. */
    const names: seq<string>
    /** The two player lists, team 1's first. */
    var rosters: seq<seq<Conn>>

    /** The picker lists match the state: nothing is touched before the
        start, a BO3 series picks two maps (choosing a side after each)
        before the banning phase, the last ban finalizes, and a BO1 machine
        of the current version never leaves `ready`. */
    ghost predicate InStep()
      reads this, model
    {
      && (phase == Ready ==>
            model.pool == model.original && model.picked == [] && model.banned == []
            && model.currentTeam == model.team1 && !model.finalized)
      && (phase == Team1Pick ==> mode == BestOfThree && model.picked == [] && model.banned == [] && !model.finalized)
      && (phase == Team2PickSide || phase == Team2Pick ==>
            mode == BestOfThree && |model.picked| == 1 && model.banned == [] && !model.finalized)
      && (phase == Team1PickSide ==> mode == BestOfThree && |model.picked| == 2 && model.banned == [] && !model.finalized)
      && (phase == WaitingForTeam1 || phase == WaitingForTeam2 ==>
            !model.finalized && |model.picked| == (if mode == BestOfThree then 2 else 0))
      && (phase == FinalMap ==> mode == BestOfOne && model.finalized && |model.picked| == 1)
      && (phase == Done ==> mode == BestOfThree && model.finalized && |model.picked| == 3)
      && (mode == BestOfOne && variant == Current ==> phase == Ready)
    }

    ghost predicate Valid()
      reads this, model
    {
      && model.Valid()
      && names == [model.team1, model.team2]
      && OnOneTeam(rosters)
      && InStep()
    }

    /** A lobby over a pool of distinctly named maps, in `ready`, with
        empty teams named after the picker's teams. */
    constructor (maps: seq<PoolMap>, t1: string, t2: string, m: Mode, v: Variant)
      requires Distinct(Names(maps))
      ensures fresh(model)
      ensures model.pool == maps && model.original == maps && model.team1 == t1 && model.team2 == t2
      ensures model.currentTeam == t1 && model.picked == [] && model.banned == [] && !model.finalized
      ensures mode == m && variant == v && phase == Ready && names == [t1, t2] && rosters == [[], []]
      ensures Valid()
    {
      model := new PickerModel(maps, t1, t2);
      mode := m;
      variant := v;
      phase := Ready;
      names := [t1, t2];
      rosters := [[], []];
    }

    /** `start_map_picker`, from `ready` only: BO3 enters the pick phase at
        team 1's pick. The older version enters the banning phase for BO1;
        the current one targets the pick phase, which a BO1 machine does
        not have. */
    method StartMapPicker() returns (r: Outcome<MachineError>)
      requires Valid()
      modifies this`phase
      ensures old(phase) != Ready ==> r == Fail(InvalidTrigger) && phase == old(phase)
      ensures old(phase) == Ready && mode == BestOfThree ==> r == Pass && phase == Team1Pick
      ensures old(phase) == Ready && mode == BestOfOne && variant == Legacy ==> r == Pass && phase == WaitingForTeam1
      ensures old(phase) == Ready && mode == BestOfOne && variant == Current ==> r == Fail(UnregisteredState) && phase == Ready
      ensures Valid()
    {
      if phase != Ready {
        return Fail(InvalidTrigger);
      }
      if mode == BestOfThree {
        phase := Team1Pick;
      } else if variant == Legacy {
        phase := WaitingForTeam1;
      } else {
        return Fail(UnregisteredState);
      }
      return Pass;
    }

    /** A ban trigger: it must be declared in the current state, and it
        fires only when the map is in the pool and more than one map
        remains. The map is banned with the tag of the team whose turn it
        is, the turn passes to the other team, and when one map is left it
        becomes the decider and the machine reaches its final state. */
    method Ban(t: TriggerTeam, name: string) returns (r: Result<Fire, MachineError>)
      requires Valid()
      modifies this`phase, model
      ensures BanTarget(variant, old(phase), t).None? ==>
        r == Err(InvalidTrigger) && phase == old(phase) && unchanged(model)
      ensures BanTarget(variant, old(phase), t).Some? && !(name in Names(old(model.pool)) && |old(model.pool)| > 1) ==>
        r == Ok(Refused) && phase == old(phase) && unchanged(model)
      ensures BanTarget(variant, old(phase), t).Some? && name in Names(old(model.pool)) && |old(model.pool)| > 1 ==>
        && r == Ok(Fired)
        && MapIndex(old(model.pool), name).Some?
        && model.banned == old(model.banned) + [old(model.pool)[MapIndex(old(model.pool), name).value].(state := BanTag(old(model.currentTeam), model.team1))]
        && model.currentTeam == (if old(model.currentTeam) == model.team1 then model.team2 else model.team1)
        && (|old(model.pool)| > 2 ==>
              && model.pool == Remove(old(model.pool), MapIndex(old(model.pool), name).value)
              && model.picked == old(model.picked) && !model.finalized
              && phase == BanTarget(variant, old(phase), t).value)
        && (|old(model.pool)| == 2 ==>
              && model.pool == [] && model.finalized
              && model.picked == old(model.picked) + [Remove(old(model.pool), MapIndex(old(model.pool), name).value)[0].(oppoSide := Some(KnifeForSides))]
              && phase == FinalPhase(mode))
      ensures Valid()
    {
      var target := BanTarget(variant, phase, t);
      if target.None? {
        return Err(InvalidTrigger);
      }
      if !(name in Names(model.pool) && |model.pool| > 1) {
        return Ok(Refused);
      }
      if |model.pool| > 2 {
        BanAndPass(target.value, name);
      } else {
        FinalBan(name);
      }
      return Ok(Fired);
    }

    /** A ban that leaves more than one map: the turn passes and the
        machine moves to `next`. */
    method BanAndPass(next: Phase, name: string)
      requires Valid() && name in Names(model.pool) && |model.pool| > 2
      requires next == WaitingForTeam1 || next == WaitingForTeam2
      requires phase == WaitingForTeam1 || phase == WaitingForTeam2
      modifies this`phase, model
      ensures MapIndex(old(model.pool), name).Some?
      ensures model.banned == old(model.banned) + [old(model.pool)[MapIndex(old(model.pool), name).value].(state := BanTag(old(model.currentTeam), model.team1))]
      ensures model.currentTeam == (if old(model.currentTeam) == model.team1 then model.team2 else model.team1)
      ensures model.pool == Remove(old(model.pool), MapIndex(old(model.pool), name).value)
      ensures model.picked == old(model.picked) && !model.finalized && phase == next
      ensures Valid()
    {
      phase := next;
      model.BanMap(name, BanTag(model.currentTeam, model.team1));
      model.currentTeam := if model.currentTeam == model.team1 then model.team2 else model.team1;
    }

    /** The ban of one of the last two maps: the other one becomes the
        decider and the machine reaches its final state. */
    method FinalBan(name: string)
      requires Valid() && name in Names(model.pool) && |model.pool| == 2
      requires phase == WaitingForTeam1 || phase == WaitingForTeam2
      modifies this`phase, model
      ensures MapIndex(old(model.pool), name).Some?
      ensures model.banned == old(model.banned) + [old(model.pool)[MapIndex(old(model.pool), name).value].(state := BanTag(old(model.currentTeam), model.team1))]
      ensures model.currentTeam == (if old(model.currentTeam) == model.team1 then model.team2 else model.team1)
      ensures model.pool == [] && model.finalized
      ensures model.picked == old(model.picked) + [Remove(old(model.pool), MapIndex(old(model.pool), name).value)[0].(oppoSide := Some(KnifeForSides))]
      ensures phase == FinalPhase(mode)
      ensures Valid()
    {
      model.BanMap(name, BanTag(model.currentTeam, model.team1));
      model.currentTeam := if model.currentTeam == model.team1 then model.team2 else model.team1;
      phase := FinalPhase(mode);
      model.FinalizeMap();
    }

    /** A pick trigger: it must be declared in the current state, and it
        fires only when the map is in the pool. The map moves to the picked
        list tagged by the team picking, and the other team chooses a
        side. */
    method Pick(t: TriggerTeam, name: string) returns (r: Result<Fire, MachineError>)
      requires Valid()
      modifies this`phase, model
      ensures PickTarget(variant, old(phase), t).None? ==>
        r == Err(InvalidTrigger) && phase == old(phase) && unchanged(model)
      ensures PickTarget(variant, old(phase), t).Some? && name !in Names(old(model.pool)) ==>
        r == Ok(Refused) && phase == old(phase) && unchanged(model)
      ensures PickTarget(variant, old(phase), t).Some? && name in Names(old(model.pool)) ==>
        && r == Ok(Fired)
        && phase == PickTarget(variant, old(phase), t).value
        && MapIndex(old(model.pool), name).Some?
        && model.pool == Remove(old(model.pool), MapIndex(old(model.pool), name).value)
        && model.picked == old(model.picked) + [old(model.pool)[MapIndex(old(model.pool), name).value].(state := PickTag(old(phase)))]
        && model.banned == old(model.banned) && model.currentTeam == old(model.currentTeam) && !model.finalized
      ensures Valid()
    {
      var target := PickTarget(variant, phase, t);
      if target.None? {
        return Err(InvalidTrigger);
      }
      if name !in Names(model.pool) {
        return Ok(Refused);
      }
      var tag := PickTag(phase);
      phase := target.value;
      model.Pick(name, tag);
      return Ok(Fired);
    }

    /** A side trigger: it must be declared in the current state; the side
        is recorded on the last picked map. */
    method ChooseSide(t: TriggerTeam, side: Side) returns (r: Outcome<MachineError>)
      requires Valid()
      modifies this`phase, model
      ensures SideTarget(variant, old(phase), t).None? ==>
        r == Fail(InvalidTrigger) && phase == old(phase) && unchanged(model)
      ensures SideTarget(variant, old(phase), t).Some? ==>
        && r == Pass
        && phase == SideTarget(variant, old(phase), t).value
        && |old(model.picked)| > 0
        && model.picked == old(model.picked)[..|old(model.picked)| - 1] + [old(model.picked)[|old(model.picked)| - 1].(side := Some(side))]
        && model.pool == old(model.pool) && model.banned == old(model.banned)
        && model.currentTeam == old(model.currentTeam) && model.finalized == old(model.finalized)
      ensures Valid()
    {
      var target := SideTarget(variant, phase, t);
      if target.None? {
        return Fail(InvalidTrigger);
      }
      phase := target.value;
      model.RecordSide(side);
      return Pass;
    }

    /** `abort`, from any state: back to `ready` with the picks and bans
        reset. */
    method Abort()
      requires Valid()
      modifies this`phase, model
      ensures phase == Ready
      ensures model.pool == model.original && model.currentTeam == model.team1
      ensures model.picked == [] && model.banned == [] && !model.finalized
      ensures Valid()
    {
      phase := Ready;
      model.ResetPicksBans();
    }

    /** `join_team`, in `ready` only; the current version with its index
        test, the older one as intended. */
    method JoinTeam(c: Conn, name: string) returns (r: Outcome<MachineError>)
      requires Valid()
      modifies this`rosters
      ensures old(phase) != Ready ==> r == Fail(InvalidTrigger) && rosters == old(rosters)
      ensures phase == Ready && variant == Legacy ==> r == Pass && rosters == Joined(old(rosters), names, c, name)
      ensures phase == Ready && variant == Current ==> r == Pass && rosters == JoinedAsWritten(old(rosters), names, c, name)
      ensures Valid()
    {
      if phase != Ready {
        return Fail(InvalidTrigger);
      }
      if variant == Legacy {
        JoinedKeepsTeams(rosters, names, c, name);
        rosters := Joined(rosters, names, c, name);
      } else {
        JoinedKeepsTeams(rosters, names, c, name);
        rosters := JoinedAsWritten(rosters, names, c, name);
      }
      return Pass;
    }

    /** `switch_teams`, in `ready` only. */
    method SwitchTeams(c: Conn) returns (r: Outcome<MachineError>)
      requires Valid()
      modifies this`rosters
      ensures old(phase) != Ready ==> r == Fail(InvalidTrigger) && rosters == old(rosters)
      ensures phase == Ready ==> r == Pass && rosters == Switched(old(rosters), names, c)
      ensures Valid()
    {
      if phase != Ready {
        return Fail(InvalidTrigger);
      }
      SwitchedKeepsTeams(rosters, names, c);
      rosters := Switched(rosters, names, c);
      return Pass;
    }
  }

  /** A finished series has used up the pool: a BO1 ends with the decider
      alone, a BO3 with two picks and the decider, and every other map of
      the pool is banned. */
  lemma FinishedSeries(m: PickerMachine)
    requires m.Valid() && (m.phase == FinalMap || m.phase == Done)
    ensures m.model.pool == []
    ensures |m.model.picked| == (if m.mode == BestOfThree then 3 else 1)
    ensures |m.model.banned| == |m.model.original| - |m.model.picked|
  {
    PickerStateIsPermutation(m.model);
  }

  function Unplayed(name: string): PoolMap
  {
    PoolMap(name, Untouched, None, None)
  }

  /** The first map of a pool is found by its name when no later map shares
      it. */
  lemma FoundFirst(pool: seq<PoolMap>)
    requires pool != [] && forall j :: 0 < j < |pool| ==> pool[j].name != pool[0].name
    ensures MapIndex(pool, pool[0].name) == Some(0)
  {
    assert OnlyNamed(pool, pool[0].name, 0);
  }

  /** Recording a side on the last map keeps the names. */
  lemma SideKeepsNames(ps: seq<PoolMap>, side: Side)
    requires ps != []
    ensures Names(ps[..|ps| - 1] + [ps[|ps| - 1].(side := Some(side))]) == Names(ps)
  {
    NamesAppend(ps[..|ps| - 1], [ps[|ps| - 1].(side := Some(side))]);
    NamesAppend(ps[..|ps| - 1], [ps[|ps| - 1]]);
    assert ps[..|ps| - 1] + [ps[|ps| - 1]] == ps;
  }

  /** The pick of the first map of the pool, in a pick phase of the
      current version. */
  method PickFirst(m: PickerMachine)
    requires m.Valid() && m.variant == Current && (m.phase == Team1Pick || m.phase == Team2Pick)
    requires m.model.pool != [] && forall j :: 0 < j < |m.model.pool| ==> m.model.pool[j].name != m.model.pool[0].name
    modifies m, m.model
    ensures m.Valid() && m.phase == (if old(m.phase) == Team1Pick then Team2PickSide else Team1PickSide)
    ensures m.model.pool == old(m.model.pool)[1..]
    ensures Names(m.model.picked) == Names(old(m.model.picked)) + [old(m.model.pool)[0].name]
  {
    ghost var picked0 := m.model.picked;
    ghost var pool0 := m.model.pool;
    ghost var phase0 := m.phase;
    FoundFirst(pool0);
    assert Names(pool0)[0] == pool0[0].name;
    assert Remove(pool0, 0) == pool0[1..];
    assert PickTarget(m.variant, phase0, Unprefixed).Some?;
    var r := m.Pick(Unprefixed, m.model.pool[0].name);
    assert m.model.picked == picked0 + [pool0[0].(state := PickTag(phase0))];
    NamesAppend(picked0, [pool0[0].(state := PickTag(phase0))]);
  }

  /** One pick and the side chosen after it: the first map of the pool is
      picked and the machine moves to the next pick or to the banning
      phase. */
  method PickFirstThenSide(m: PickerMachine, side: Side)
    requires m.Valid() && m.variant == Current && (m.phase == Team1Pick || m.phase == Team2Pick)
    requires m.model.pool != [] && forall j :: 0 < j < |m.model.pool| ==> m.model.pool[j].name != m.model.pool[0].name
    modifies m, m.model
    ensures m.Valid() && m.phase == (if old(m.phase) == Team1Pick then Team2Pick else WaitingForTeam1)
    ensures m.model.pool == old(m.model.pool)[1..]
    ensures Names(m.model.picked) == Names(old(m.model.picked)) + [old(m.model.pool)[0].name]
  {
    PickFirst(m);
    ghost var picked1 := m.model.picked;
    var s := m.ChooseSide(Unprefixed, side);
    SideKeepsNames(picked1, side);
  }

  /** The opening of the BO3 series below: team 1 picks map1 and team 2
      chooses Terrorists, team 2 picks map2 and team 1 chooses
      Counter-Terrorists; the banning phase opens on map3, map4, map5. */
  method OpeningPicks(m: PickerMachine)
    requires m.Valid() && m.mode == BestOfThree && m.variant == Current && m.phase == Ready
    requires m.model.pool == [Unplayed("map1"), Unplayed("map2"), Unplayed("map3"), Unplayed("map4"), Unplayed("map5")]
    modifies m, m.model
    ensures m.Valid() && m.phase == WaitingForTeam1
    ensures m.model.pool == [Unplayed("map3"), Unplayed("map4"), Unplayed("map5")]
    ensures Names(m.model.picked) == ["map1", "map2"]
  {
    var started := m.StartMapPicker();
    PickFirstThenSide(m, Terrorists);
    PickFirstThenSide(m, CounterTerrorists);
  }

  /** One ban of the first map of the pool, in the banning phase of the
      current version. */
  method BanFirst(m: PickerMachine)
    requires m.Valid() && m.variant == Current && (m.phase == WaitingForTeam1 || m.phase == WaitingForTeam2)
    requires |m.model.pool| >= 2 && forall j :: 0 < j < |m.model.pool| ==> m.model.pool[j].name != m.model.pool[0].name
    modifies m, m.model
    ensures m.Valid()
    ensures |old(m.model.pool)| > 2 ==>
      && m.model.pool == old(m.model.pool)[1..] && m.model.picked == old(m.model.picked)
      && m.phase == (if old(m.phase) == WaitingForTeam1 then WaitingForTeam2 else WaitingForTeam1)
    ensures |old(m.model.pool)| == 2 ==>
      m.phase == FinalPhase(m.mode) && Names(m.model.picked) == Names(old(m.model.picked)) + [old(m.model.pool)[1].name]
  {
    FoundFirst(m.model.pool);
    assert Names(m.model.pool)[0] == m.model.pool[0].name;
    var r := m.Ban(Unprefixed, m.model.pool[0].name);
  }

  /** The banning phase of the series below: map3 and map4 are banned and
      map5 is the decider. */
  method ClosingBans(m: PickerMachine)
    requires m.Valid() && m.mode == BestOfThree && m.variant == Current && m.phase == WaitingForTeam1
    requires m.model.pool == [Unplayed("map3"), Unplayed("map4"), Unplayed("map5")]
    requires Names(m.model.picked) == ["map1", "map2"]
    modifies m, m.model
    ensures m.phase == Done && Names(m.model.picked) == ["map1", "map2", "map5"]
  {
    BanFirst(m);
    assert m.model.pool == [Unplayed("map4"), Unplayed("map5")];
    BanFirst(m);
  }

  /** The five maps of the series below have distinct names. */
  lemma FiveMapsDistinct()
    ensures Distinct(Names([Unplayed("map1"), Unplayed("map2"), Unplayed("map3"), Unplayed("map4"), Unplayed("map5")]))
  {
    assert Names([Unplayed("map1"), Unplayed("map2"), Unplayed("map3"), Unplayed("map4"), Unplayed("map5")])
        == ["map1", "map2", "map3", "map4", "map5"];
  }

  /** A BO3 series over five maps: after the opening picks map3 and map4 are
      banned, map5 is the decider and the machine is done. */
  method BestOfThreeSeries() returns (played: seq<string>, phase: Phase)
    ensures played == ["map1", "map2", "map5"] && phase == Done
  {
    var maps := [Unplayed("map1"), Unplayed("map2"), Unplayed("map3"), Unplayed("map4"), Unplayed("map5")];
    FiveMapsDistinct();
    var m := new PickerMachine(maps, "Team A", "Team B", BestOfThree, Current);
    OpeningPicks(m);
    ClosingBans(m);
    played := Names(m.model.picked);
    phase := m.phase;
  }

  // ---------------------------------------------------------------------
  // Connections
  // ---------------------------------------------------------------------

  datatype ConnState = Listen | Accepted | Established | Closed

  datatype CommandKind = IdentifyClient | OtherCommand

  /** A command as far as the connection manager reads it. */
  datatype Command = Command(kind: CommandKind, seqNo: int, clientId: string)

  /** A trigger the connection's state does not declare, or a command out
      of sequence (the invalid-ack error, with the number got and the
      number expected). */
  datatype ConnError = NotDeclared | InvalidAck(got: int, expected: int)

  /** `WSConnMgr`: a connection's state, the last sequence number it
      accepted and the client id it identified with. */
  class ConnMgr {
    var state: ConnState
    var lastSeqNo: int
    var clientId: Option<string>

    /** A listening connection has numbered nothing, nobody has
        identified before `established`, and an established connection has
        identified. */
    ghost predicate Valid()
      reads this
    {
      && (state == Listen ==> lastSeqNo == 0)
      && (state == Listen || state == Accepted ==> clientId.None?)
      && (state == Established ==> clientId.Some?)
    }

    constructor ()
      ensures state == Listen && lastSeqNo == 0 && clientId.None?
      ensures Valid()
    {
      state := Listen;
      lastSeqNo := 0;
      clientId := None;
    }

    /** `accept`, from `listen` only. */
    method Accept() returns (r: Outcome<ConnError>)
      requires Valid()
      modifies this
      ensures old(state) == Listen ==> r == Pass && state == Accepted
      ensures old(state) != Listen ==> r == Fail(NotDeclared) && state == old(state)
      ensures lastSeqNo == old(lastSeqNo) && clientId == old(clientId)
      ensures Valid()
    {
      if state != Listen {
        return Fail(NotDeclared);
      }
      state := Accepted;
      return Pass;
    }

    /** `new_msg` and `handle_msg`: a message is taken in `accepted` or
        `established` only. An identify command moves an accepted
        connection to `established` and sets the sequence number and client
        id from the command; an established connection cannot identify
        again. Any other command is accepted only if it carries the next
        sequence number, which becomes the last one; otherwise it is an
        invalid ack and nothing changes. */
    method NewMsg(cmd: Command) returns (r: Outcome<ConnError>)
      requires Valid()
      modifies this
      ensures old(state) != Accepted && old(state) != Established ==>
        r == Fail(NotDeclared) && unchanged(this)
      ensures (old(state) == Accepted || old(state) == Established) && cmd.kind == IdentifyClient ==>
        if old(state) == Accepted then
          r == Pass && state == Established && lastSeqNo == cmd.seqNo && clientId == Some(cmd.clientId)
        else r == Fail(NotDeclared) && unchanged(this)
      ensures (old(state) == Accepted || old(state) == Established) && cmd.kind == OtherCommand ==>
        if cmd.seqNo == old(lastSeqNo) + 1 then
          r == Pass && lastSeqNo == cmd.seqNo && state == old(state) && clientId == old(clientId)
        else r == Fail(InvalidAck(cmd.seqNo, old(lastSeqNo) + 1)) && unchanged(this)
      ensures Valid()
    {
      if state != Accepted && state != Established {
        return Fail(NotDeclared);
      }
      if cmd.kind == IdentifyClient {
        if state != Accepted {
          return Fail(NotDeclared);
        }
        state := Established;
        lastSeqNo := cmd.seqNo;
        clientId := Some(cmd.clientId);
        return Pass;
      }
      if cmd.seqNo != lastSeqNo + 1 {
        return Fail(InvalidAck(cmd.seqNo, lastSeqNo + 1));
      }
      lastSeqNo := cmd.seqNo;
      return Pass;
    }

    /** `disconnect` and `connection_error`, from `accepted` or
        `established`: the connection closes. */
    method Disconnect() returns (r: Outcome<ConnError>)
      requires Valid()
      modifies this
      ensures old(state) == Accepted || old(state) == Established ==> r == Pass && state == Closed
      ensures !(old(state) == Accepted || old(state) == Established) ==> r == Fail(NotDeclared) && state == old(state)
      ensures lastSeqNo == old(lastSeqNo) && clientId == old(clientId)
      ensures Valid()
    {
      if state != Accepted && state != Established {
        return Fail(NotDeclared);
      }
      state := Closed;
      return Pass;
    }
  }
}
