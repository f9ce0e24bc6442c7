/** Tournament standings.

    Both calculators walk the rounds of one stage in their query order, and
    within each round its fixtures, skipping every fixture that is neither
    COMPLETED nor FORFEITED.  Each processed fixture updates a dictionary
    keyed by team id in place: the dictionary is a `TeamTable` object whose
    `entries` map and `order` sequence (Python dictionaries iterate in
    insertion order) the processing methods reassign.

    `match_service.get_match_result` is not defined by the match service; it
    is modelled as the map `resultWinner`: a fixture id that is absent has no
    result, and a present one carries the result's `winner_id` (None for a
    drawn result).  Indexing the dictionary with a winner that has no entry
    raises KeyError, and a team id that is None or unknown when the rows are
    built makes `team.name` fail; both are the error `Err`. */
module Standings {
  import opened Common
  import opened CompetitionData
  import opened StableSort

  datatype StandingsError = KeyError | TeamNotFound | NoCalculator

  datatype TeamStatus = Active | Eliminated | Qualified | Winner

  /** One row of the standings. */
  datatype TournamentTeam = TournamentTeam(
    teamId: Id, teamName: string, played: nat, won: nat, lost: nat, points: nat, status: TeamStatus)

  /** `round` is the number of the last processed round (knockout only). */
  datatype TournamentStandings = TournamentStandings(round: Option<int>, teams: seq<TournamentTeam>)

  /** The fixtures of one round, in the order the database returns them. */
  datatype RoundFixtures = RoundFixtures(roundNumber: int, fixtures: seq<(Id, Fixture)>)

  /** A dictionary value: its entries and its key insertion order. */
  datatype Table<S> = Table(entries: map<Option<Id>, S>, order: seq<Option<Id>>)

  /** The keys of the dictionary are exactly the keys of its iteration order,
      each once. */
  ghost predicate Indexed<S>(t: Table<S>)
  {
    && (forall k :: k in t.entries <==> k in t.order)
    && (forall i, j :: 0 <= i < j < |t.order| ==> t.order[i] != t.order[j])
  }

  /** `if team_id not in d: d[team_id] = zero`. */
  function WithTeam<S>(t: Table<S>, key: Option<Id>, zero: S): (r: Table<S>)
    ensures key in r.entries && r.entries.Keys == t.entries.Keys + {key}
    ensures forall k :: k in t.entries ==> r.entries[k] == t.entries[k]
    ensures key !in t.entries ==> r.entries[key] == zero
    ensures Indexed(t) ==> Indexed(r)
  {
    if key in t.entries then t else Table(t.entries[key := zero], t.order + [key])
  }

  /** `d[k] = v` for a key `k` already present. */
  function Put<S>(t: Table<S>, k: Option<Id>, v: S): (r: Table<S>)
    requires k in t.entries
    ensures r.order == t.order && r.entries == t.entries[k := v]
    ensures Indexed(t) ==> Indexed(r)
  {
    t.(entries := t.entries[k := v])
  }

  /** How a finished fixture is decided. */
  datatype Decision = NoResult | MutualForfeit | Decided(winner: Option<Id>, loser: Option<Id>)

  /** The winner is the forfeit winner of a forfeited fixture, otherwise the
      winner of its result; the loser is `team_2` when the winner is `team_1`
      and `team_1` otherwise. */
  function Decide(fid: Id, f: Fixture, resultWinner: map<Id, Option<Id>>): (d: Decision)
    ensures d.NoResult? <==> f.status != FixtureStatus.Forfeited && fid !in resultWinner
    ensures d.MutualForfeit? <==> f.status == FixtureStatus.Forfeited && f.forfeitWinner.None?
    ensures d.Decided? && f.status == FixtureStatus.Forfeited ==> d.winner == f.forfeitWinner
    ensures d.Decided? && f.status != FixtureStatus.Forfeited ==> fid in resultWinner && d.winner == resultWinner[fid]
    ensures d.Decided? && d.winner == Some(f.team1) ==> d.loser == f.team2
    ensures d.Decided? && d.winner != Some(f.team1) ==> d.loser == Some(f.team1)
  {
    var w :=
      if f.status == FixtureStatus.Forfeited then f.forfeitWinner
      else if fid in resultWinner then resultWinner[fid]
      else None;
    if f.status == FixtureStatus.Forfeited && f.forfeitWinner.None? then MutualForfeit
    else if f.status != FixtureStatus.Forfeited && fid !in resultWinner then NoResult
    else Decided(w, if w == Some(f.team1) then f.team2 else Some(f.team1))
  }

  /** Between two distinct sides, a winner that is one of them leaves the
      other one as the loser. */
  lemma DecidedSides(fid: Id, f: Fixture, resultWinner: map<Id, Option<Id>>)
    requires f.team2 != Some(f.team1)
    requires Decide(fid, f, resultWinner).Decided?
    requires Decide(fid, f, resultWinner).winner in {Some(f.team1), f.team2}
    ensures var d := Decide(fid, f, resultWinner);
      d.winner != d.loser && {d.winner, d.loser} == {Some(f.team1), f.team2}
  {
  }

  class TeamTable<S> {
    var entries: map<Option<Id>, S>
    var order: seq<Option<Id>>

    constructor ()
      ensures entries == map[] && order == []
    {
      entries, order := map[], [];
    }

    function Snapshot(): Table<S>
      reads this
    {
      Table(entries, order)
    }

    method InitTeam(key: Option<Id>, zero: S)
      modifies this
      ensures Snapshot() == WithTeam(old(Snapshot()), key, zero)
    {
      if key !in entries {
        entries := entries[key := zero];
        order := order + [key];
      }
    }
  }

  // ---------------------------------------------------------------- regular

  datatype Stats = Stats(played: nat, won: nat, lost: nat, points: nat)

  const NoMatches := Stats(0, 0, 0, 0)

  function AddWin(s: Stats): Stats
  {
    Stats(s.played + 1, s.won + 1, s.lost, s.points + 3)
  }

  function AddLoss(s: Stats): Stats
  {
    Stats(s.played + 1, s.won, s.lost + 1, s.points)
  }

  /** Three points per win and nothing else; every match played is won or lost. */
  predicate Consistent(s: Stats)
  {
    s.points == 3 * s.won && s.played == s.won + s.lost
  }

  ghost predicate GoodStats(t: Table<Stats>)
  {
    Indexed(t) && forall k :: k in t.entries ==> Consistent(t.entries[k])
  }

  /** A loss for `a`, then a loss for `b`. */
  function Losses(t: Table<Stats>, a: Option<Id>, b: Option<Id>): (r: Table<Stats>)
    requires a in t.entries && b in t.entries
    ensures r.entries.Keys == t.entries.Keys
    ensures GoodStats(t) ==> GoodStats(r)
  {
    var t2 := Put(t, a, AddLoss(t.entries[a]));
    Put(t2, b, AddLoss(t2.entries[b]))
  }

  /** A win for `w`, then a loss for `l`. */
  function WinLoss(t: Table<Stats>, w: Option<Id>, l: Option<Id>): (r: Table<Stats>)
    requires w in t.entries && l in t.entries
    ensures r.entries.Keys == t.entries.Keys
    ensures GoodStats(t) ==> GoodStats(r)
  {
    var t2 := Put(t, w, AddWin(t.entries[w]));
    Put(t2, l, AddLoss(t2.entries[l]))
  }

  /** `_process_fixture_result` on the dictionary value `t`. */
  function RegularFixture(t: Table<Stats>, fid: Id, f: Fixture, resultWinner: map<Id, Option<Id>>): (r: Result<Table<Stats>, StandingsError>)
    ensures r.Err? <==>
      && Decide(fid, f, resultWinner).Decided?
      && Decide(fid, f, resultWinner).winner !in t.entries.Keys + {Some(f.team1), f.team2}
    ensures r.Err? ==> r.error == KeyError
    ensures r.Ok? ==> r.value.entries.Keys == t.entries.Keys + {Some(f.team1), f.team2}
  {
    var t1 := WithTeam(WithTeam(t, Some(f.team1), NoMatches), f.team2, NoMatches);
    match Decide(fid, f, resultWinner)
    case NoResult => Ok(t1)
    case MutualForfeit => Ok(Losses(t1, Some(f.team1), f.team2))
    case Decided(w, l) => if w !in t1.entries then Err(KeyError) else Ok(WinLoss(t1, w, l))
  }

  lemma WithTeamGood(t: Table<Stats>, key: Option<Id>)
    requires GoodStats(t)
    ensures GoodStats(WithTeam(t, key, NoMatches))
  {
  }

  /** Fixture processing keeps every entry consistent and the keys in
      insertion order. */
  lemma RegularFixtureGood(t: Table<Stats>, fid: Id, f: Fixture, resultWinner: map<Id, Option<Id>>)
    requires GoodStats(t)
    ensures RegularFixture(t, fid, f, resultWinner).Ok? ==> GoodStats(RegularFixture(t, fid, f, resultWinner).value)
  {
    var t0 := WithTeam(t, Some(f.team1), NoMatches);
    WithTeamGood(t, Some(f.team1));
    var t1 := WithTeam(t0, f.team2, NoMatches);
    WithTeamGood(t0, f.team2);
    var r := RegularFixture(t, fid, f, resultWinner);
    match Decide(fid, f, resultWinner)
    case NoResult =>
      assert r == Ok(t1);
    case MutualForfeit =>
      assert r == Ok(Losses(t1, Some(f.team1), f.team2));
    case Decided(w, l) =>
      assert r.Ok? ==> r == Ok(WinLoss(t1, w, l));
  }

  /** The counters before fixture processing: the existing entry, or zero. */
  function StatsBefore(t: Table<Stats>, k: Option<Id>): Stats
  {
    if k in t.entries then t.entries[k] else NoMatches
  }

  /** What one fixture between two distinct sides does to the counters: a
      mutual forfeit is a loss for both; a decided fixture is a win (+3
      points) for the winner and a loss for the other side; a fixture without
      a result only creates the two entries; no other entry changes. */
  lemma RegularFixtureEffect(t: Table<Stats>, fid: Id, f: Fixture, resultWinner: map<Id, Option<Id>>)
    requires f.team2 != Some(f.team1)
    ensures var r := RegularFixture(t, fid, f, resultWinner);
      var d := Decide(fid, f, resultWinner);
      var a, b := Some(f.team1), f.team2;
      && (d.NoResult? ==> r.Ok? && r.value.entries[a] == StatsBefore(t, a) && r.value.entries[b] == StatsBefore(t, b))
      && (d.MutualForfeit? ==> r.Ok? && r.value.entries[a] == AddLoss(StatsBefore(t, a)) && r.value.entries[b] == AddLoss(StatsBefore(t, b)))
      && (d.Decided? && d.winner in {a, b} ==>
            && r.Ok?
            && r.value.entries[d.winner] == AddWin(StatsBefore(t, d.winner))
            && r.value.entries[d.loser] == AddLoss(StatsBefore(t, d.loser)))
      && (r.Ok? ==> forall k :: k in t.entries && k != a && k != b && !(d.Decided? && k == d.winner) ==>
            r.value.entries[k] == t.entries[k])
  {
    var d := Decide(fid, f, resultWinner);
    if d.Decided? && d.winner in {Some(f.team1), f.team2} {
      DecidedSides(fid, f, resultWinner);
    }
  }

  /** One step of the fixture loop: unfinished fixtures are skipped. */
  function RegularStep(t: Table<Stats>, fx: (Id, Fixture), resultWinner: map<Id, Option<Id>>): Result<Table<Stats>, StandingsError>
  {
    if Finished(fx.1.status) then RegularFixture(t, fx.0, fx.1, resultWinner) else Ok(t)
  }

  /** The fixture loop of one round, from table `t`; the first error ends it. */
  function RegularFold(t: Table<Stats>, fs: seq<(Id, Fixture)>, resultWinner: map<Id, Option<Id>>): Result<Table<Stats>, StandingsError>
    decreases fs
  {
    if fs == [] then Ok(t)
    else match RegularStep(t, fs[0], resultWinner)
      case Err(e) => Err(e)
      case Ok(t1) => RegularFold(t1, fs[1..], resultWinner)
  }

  /** The round loop, from table `t`. */
  function RegularRounds(t: Table<Stats>, rounds: seq<RoundFixtures>, resultWinner: map<Id, Option<Id>>): Result<Table<Stats>, StandingsError>
    decreases rounds, 1
  {
    if rounds == [] then Ok(t)
    else ThenRegularRounds(RegularFold(t, rounds[0].fixtures, resultWinner), rounds[1..], resultWinner)
  }

  function ThenRegularRounds(r: Result<Table<Stats>, StandingsError>, rounds: seq<RoundFixtures>, resultWinner: map<Id, Option<Id>>): Result<Table<Stats>, StandingsError>
    decreases rounds, 2
  {
    match r
    case Err(e) => Err(e)
    case Ok(t) => RegularRounds(t, rounds, resultWinner)
  }

  lemma {:induction false} RegularFoldGood(t: Table<Stats>, fs: seq<(Id, Fixture)>, resultWinner: map<Id, Option<Id>>)
    requires GoodStats(t)
    decreases fs
    ensures RegularFold(t, fs, resultWinner).Ok? ==> GoodStats(RegularFold(t, fs, resultWinner).value)
  {
    if fs != [] {
      var s := RegularStep(t, fs[0], resultWinner);
      RegularFixtureGood(t, fs[0].0, fs[0].1, resultWinner);
      if s.Ok? {
        RegularFoldGood(s.value, fs[1..], resultWinner);
      }
    }
  }

  /** Every entry of the table the calculator builds has three points per win
      and as many matches played as won plus lost, and its keys are its
      iteration order. */
  lemma {:induction false} RegularRoundsGood(t: Table<Stats>, rounds: seq<RoundFixtures>, resultWinner: map<Id, Option<Id>>)
    requires GoodStats(t)
    decreases rounds
    ensures RegularRounds(t, rounds, resultWinner).Ok? ==> GoodStats(RegularRounds(t, rounds, resultWinner).value)
  {
    if rounds != [] {
      var s := RegularFold(t, rounds[0].fixtures, resultWinner);
      RegularFoldGood(t, rounds[0].fixtures, resultWinner);
      if s.Ok? {
        RegularRoundsGood(s.value, rounds[1..], resultWinner);
      }
    }
  }

  /** The fixtures whose status is COMPLETED or FORFEITED, in order. */
  function FinishedOnly(fs: seq<(Id, Fixture)>): seq<(Id, Fixture)>
  {
    if fs == [] then [] else (if Finished(fs[0].1.status) then [fs[0]] else []) + FinishedOnly(fs[1..])
  }

  /** Skipping is exact: the fixture loop gives the same table on the
      finished fixtures alone. */
  lemma {:induction false} RegularOnlyFinishedCount(t: Table<Stats>, fs: seq<(Id, Fixture)>, resultWinner: map<Id, Option<Id>>)
    decreases fs
    ensures RegularFold(t, fs, resultWinner) == RegularFold(t, FinishedOnly(fs), resultWinner)
  {
    if fs != [] {
      if Finished(fs[0].1.status) {
        assert FinishedOnly(fs) == [fs[0]] + FinishedOnly(fs[1..]);
        assert FinishedOnly(fs)[1..] == FinishedOnly(fs[1..]);
        var s := RegularStep(t, fs[0], resultWinner);
        if s.Ok? {
          RegularOnlyFinishedCount(s.value, fs[1..], resultWinner);
        }
      } else {
        assert FinishedOnly(fs) == FinishedOnly(fs[1..]);
        RegularOnlyFinishedCount(t, fs[1..], resultWinner);
      }
    }
  }

  function RegularRow(id: Id, name: string, s: Stats): TournamentTeam
  {
    TournamentTeam(id, name, s.played, s.won, s.lost, s.points, TeamStatus.Active)
  }

  /** A key that cannot be turned into a row: None, or a team that does not exist. */
  predicate Unnamed(k: Option<Id>, names: map<Id, string>)
  {
    k.None? || k.value !in names
  }

  /** The rows for `keys`, in order; the first key without a team fails. */
  function RegularRows(entries: map<Option<Id>, Stats>, keys: seq<Option<Id>>, names: map<Id, string>): (r: Result<seq<TournamentTeam>, StandingsError>)
    requires forall i :: 0 <= i < |keys| ==> keys[i] in entries
    ensures r.Err? <==> exists i :: 0 <= i < |keys| && Unnamed(keys[i], names)
    ensures r.Err? ==> r.error == TeamNotFound
    ensures r.Ok? ==> |r.value| == |keys|
    ensures r.Ok? ==> forall i :: 0 <= i < |keys| ==>
      && Some(r.value[i].teamId) == keys[i]
      && r.value[i] == RegularRow(keys[i].value, names[keys[i].value], entries[keys[i]])
  {
    if keys == [] then Ok([])
    else if Unnamed(keys[0], names) then Err(TeamNotFound)
    else match RegularRows(entries, keys[1..], names)
      case Err(e) => Err(e)
      case Ok(rows) => Ok([RegularRow(keys[0].value, names[keys[0].value], entries[keys[0]])] + rows)
  }

  /** The unsorted rows of the regular standings, in dictionary order. */
  function RegularTable(rounds: seq<RoundFixtures>, resultWinner: map<Id, Option<Id>>, names: map<Id, string>): Result<seq<TournamentTeam>, StandingsError>
  {
    var empty: Table<Stats> := Table(map[], []);
    RegularRoundsGood(empty, rounds, resultWinner);
    match RegularRounds(empty, rounds, resultWinner)
    case Err(e) => Err(e)
    case Ok(t) => RegularRows(t.entries, t.order, names)
  }

  /** `(points, matches_won, -matches_lost)`. */
  function RegularKey(row: TournamentTeam): Key
  {
    Key(row.points, row.won, -(row.lost as int))
  }

  /** `RegularStandingsCalculator.calculate_standings`. */
  function RegularStandings(rounds: seq<RoundFixtures>, resultWinner: map<Id, Option<Id>>, names: map<Id, string>): Result<TournamentStandings, StandingsError>
  {
    match RegularTable(rounds, resultWinner, names)
    case Err(e) => Err(e)
    case Ok(rows) => Ok(TournamentStandings(None, SortDesc(rows, RegularKey)))
  }

  /** The regular standings are the dictionary's rows sorted by descending
      (points, wins, -losses), ties in dictionary order; every row has three
      points per win and played = won + lost. */
  lemma RegularStandingsOrdered(rounds: seq<RoundFixtures>, resultWinner: map<Id, Option<Id>>, names: map<Id, string>)
    ensures var s := RegularStandings(rounds, resultWinner, names);
      var rows := RegularTable(rounds, resultWinner, names);
      && (s.Ok? <==> rows.Ok?)
      && (s.Ok? ==>
            && s.value.round == None
            && SortedDesc(s.value.teams, RegularKey)
            && multiset(s.value.teams) == multiset(rows.value)
            && (forall k :: WithKey(s.value.teams, RegularKey, k) == WithKey(rows.value, RegularKey, k))
            && (forall i :: 0 <= i < |s.value.teams| ==>
                  s.value.teams[i].points == 3 * s.value.teams[i].won
                  && s.value.teams[i].played == s.value.teams[i].won + s.value.teams[i].lost))
  {
    var rows := RegularTable(rounds, resultWinner, names);
    if rows.Ok? {
      var sorted := SortDesc(rows.value, RegularKey);
      SortDescCorrect(rows.value, RegularKey);
      forall k ensures WithKey(sorted, RegularKey, k) == WithKey(rows.value, RegularKey, k) {
        SortDescStable(rows.value, RegularKey, k);
      }
      RegularRowsConsistent(rounds, resultWinner, names);
      SortDescKeeps(rows.value, RegularKey, (x: TournamentTeam) => x.points == 3 * x.won && x.played == x.won + x.lost);
    }
  }

  /** Every row of the regular table has three points a win and as many
      matches played as won and lost. */
  lemma RegularRowsConsistent(rounds: seq<RoundFixtures>, resultWinner: map<Id, Option<Id>>, names: map<Id, string>)
    ensures var rows := RegularTable(rounds, resultWinner, names);
      rows.Ok? ==> forall j :: 0 <= j < |rows.value| ==>
        rows.value[j].points == 3 * rows.value[j].won && rows.value[j].played == rows.value[j].won + rows.value[j].lost
  {
    var rows := RegularTable(rounds, resultWinner, names);
    if rows.Ok? {
      var empty: Table<Stats> := Table(map[], []);
      RegularRoundsGood(empty, rounds, resultWinner);
      var t := RegularRounds(empty, rounds, resultWinner).value;
      forall j | 0 <= j < |rows.value|
        ensures rows.value[j].points == 3 * rows.value[j].won && rows.value[j].played == rows.value[j].won + rows.value[j].lost
      {
        assert Consistent(t.entries[t.order[j]]);
      }
    }
  }

  /** `_process_fixture_result`, updating the dictionary `table` in place. */
  method ProcessFixtureResult(table: TeamTable<Stats>, fid: Id, f: Fixture, resultWinner: map<Id, Option<Id>>)
    returns (r: Outcome<StandingsError>)
    modifies table
    ensures var p := RegularFixture(old(table.Snapshot()), fid, f, resultWinner);
      && (p.Ok? ==> r.Pass? && table.Snapshot() == p.value)
      && (p.Err? ==> r == Fail(p.error))
  {
    table.InitTeam(Some(f.team1), NoMatches);
    table.InitTeam(f.team2, NoMatches);
    match Decide(fid, f, resultWinner) {
      case NoResult =>
        r := Pass;
      case MutualForfeit =>
        table.entries := table.entries[Some(f.team1) := AddLoss(table.entries[Some(f.team1)])];
        table.entries := table.entries[f.team2 := AddLoss(table.entries[f.team2])];
        r := Pass;
      case Decided(w, l) =>
        if w !in table.entries {
          return Fail(KeyError);
        }
        table.entries := table.entries[w := AddWin(table.entries[w])];
        table.entries := table.entries[l := AddLoss(table.entries[l])];
        r := Pass;
    }
  }

  /** The fixture loop of one round. */
  method ProcessRegularRound(table: TeamTable<Stats>, fs: seq<(Id, Fixture)>, resultWinner: map<Id, Option<Id>>)
    returns (r: Outcome<StandingsError>)
    modifies table
    ensures var p := RegularFold(old(table.Snapshot()), fs, resultWinner);
      && (p.Ok? ==> r.Pass? && table.Snapshot() == p.value)
      && (p.Err? ==> r == Fail(p.error))
  {
    ghost var total := RegularFold(table.Snapshot(), fs, resultWinner);
    var j := 0;
    while j < |fs|
      invariant 0 <= j <= |fs|
      invariant total == RegularFold(table.Snapshot(), fs[j..], resultWinner)
    {
      assert fs[j..][1..] == fs[j + 1..];
      if Finished(fs[j].1.status) {
        var o := ProcessFixtureResult(table, fs[j].0, fs[j].1, resultWinner);
        if o.Fail? {
          return o;
        }
      }
      j := j + 1;
    }
    r := Pass;
  }

  /** The round loop. */
  method TallyRegular(table: TeamTable<Stats>, rounds: seq<RoundFixtures>, resultWinner: map<Id, Option<Id>>)
    returns (r: Outcome<StandingsError>)
    modifies table
    ensures var p := RegularRounds(old(table.Snapshot()), rounds, resultWinner);
      && (p.Ok? ==> r.Pass? && table.Snapshot() == p.value)
      && (p.Err? ==> r == Fail(p.error))
  {
    ghost var total := RegularRounds(table.Snapshot(), rounds, resultWinner);
    var i := 0;
    while i < |rounds|
      invariant 0 <= i <= |rounds|
      invariant total == RegularRounds(table.Snapshot(), rounds[i..], resultWinner)
    {
      assert rounds[i..][1..] == rounds[i + 1..];
      var o := ProcessRegularRound(table, rounds[i].fixtures, resultWinner);
      if o.Fail? {
        return o;
      }
      i := i + 1;
    }
    r := Pass;
  }

  /** The conversion loop: one row per dictionary entry, in dictionary order. */
  method RegularRowsOf(table: TeamTable<Stats>, names: map<Id, string>) returns (r: Result<seq<TournamentTeam>, StandingsError>)
    requires forall i :: 0 <= i < |table.order| ==> table.order[i] in table.entries
    ensures r == RegularRows(table.entries, table.order, names)
  {
    var rows: seq<TournamentTeam> := [];
    var k := 0;
    while k < |table.order|
      invariant 0 <= k <= |table.order| && |rows| == k
      invariant forall i :: 0 <= i < k ==>
        !Unnamed(table.order[i], names)
        && rows[i] == RegularRow(table.order[i].value, names[table.order[i].value], table.entries[table.order[i]])
    {
      var key := table.order[k];
      if Unnamed(key, names) {
        assert Unnamed(table.order[k], names);
        return Err(TeamNotFound);
      }
      rows := rows + [RegularRow(key.value, names[key.value], table.entries[key])];
      k := k + 1;
    }
    assert RegularRows(table.entries, table.order, names).Ok?;
    assert RegularRows(table.entries, table.order, names).value == rows;
    r := Ok(rows);
  }

  /** `RegularStandingsCalculator.calculate_standings`: `rounds` are the
      group-stage rounds ordered by round number, `names` the team names. */
  method CalculateRegular(rounds: seq<RoundFixtures>, resultWinner: map<Id, Option<Id>>, names: map<Id, string>)
    returns (r: Result<TournamentStandings, StandingsError>)
    ensures r == RegularStandings(rounds, resultWinner, names)
  {
    var table := new TeamTable<Stats>();
    ghost var empty: Table<Stats> := Table(map[], []);
    assert table.Snapshot() == empty;
    var o := TallyRegular(table, rounds, resultWinner);
    if o.Fail? {
      return Err(o.error);
    }
    RegularRoundsGood(empty, rounds, resultWinner);
    var rows := RegularRowsOf(table, names);
    if rows.Err? {
      return Err(rows.error);
    }
    r := Ok(TournamentStandings(None, SortDesc(rows.value, RegularKey)));
  }

  // --------------------------------------------------------------- knockout

  datatype Placement = Placement(played: nat, won: nat, lost: nat, lastRound: int, status: TeamStatus)

  function Loses(p: Placement): Placement
  {
    p.(played := p.played + 1, lost := p.lost + 1, status := Eliminated)
  }

  function Advances(p: Placement, roundNumber: int): Placement
  {
    p.(played := p.played + 1, won := p.won + 1, lastRound := roundNumber,
       status := if roundNumber > 1 then Qualified else Winner)
  }

  ghost predicate GoodPlacements(t: Table<Placement>)
  {
    Indexed(t) && forall k :: k in t.entries ==> t.entries[k].played == t.entries[k].won + t.entries[k].lost
  }

  /** Both `a` and `b` are eliminated. */
  function Eliminations(t: Table<Placement>, a: Option<Id>, b: Option<Id>): (r: Table<Placement>)
    requires a in t.entries && b in t.entries
    ensures r.entries.Keys == t.entries.Keys
    ensures GoodPlacements(t) ==> GoodPlacements(r)
  {
    var t2 := Put(t, a, Loses(t.entries[a]));
    Put(t2, b, Loses(t2.entries[b]))
  }

  /** `w` advances from round `roundNumber` and `l` is eliminated. */
  function Advancement(t: Table<Placement>, roundNumber: int, w: Option<Id>, l: Option<Id>): (r: Table<Placement>)
    requires w in t.entries && l in t.entries
    ensures r.entries.Keys == t.entries.Keys
    ensures GoodPlacements(t) ==> GoodPlacements(r)
  {
    var t2 := Put(t, w, Advances(t.entries[w], roundNumber));
    Put(t2, l, Loses(t2.entries[l]))
  }

  /** `_process_knockout_fixture` on the dictionary value `t`. */
  function KnockoutFixture(t: Table<Placement>, roundNumber: int, fid: Id, f: Fixture, resultWinner: map<Id, Option<Id>>)
    : (r: Result<Table<Placement>, StandingsError>)
    ensures r.Err? <==>
      && Decide(fid, f, resultWinner).Decided?
      && Decide(fid, f, resultWinner).winner !in t.entries.Keys + {Some(f.team1), f.team2}
    ensures r.Err? ==> r.error == KeyError
    ensures r.Ok? ==> r.value.entries.Keys == t.entries.Keys + {Some(f.team1), f.team2}
  {
    var zero := Placement(0, 0, 0, roundNumber, Eliminated);
    var t1 := WithTeam(WithTeam(t, Some(f.team1), zero), f.team2, zero);
    match Decide(fid, f, resultWinner)
    case NoResult => Ok(t1)
    case MutualForfeit => Ok(Eliminations(t1, Some(f.team1), f.team2))
    case Decided(w, l) => if w !in t1.entries then Err(KeyError) else Ok(Advancement(t1, roundNumber, w, l))
  }

  lemma KnockoutFixtureGood(t: Table<Placement>, roundNumber: int, fid: Id, f: Fixture, resultWinner: map<Id, Option<Id>>)
    requires GoodPlacements(t)
    ensures KnockoutFixture(t, roundNumber, fid, f, resultWinner).Ok? ==>
      GoodPlacements(KnockoutFixture(t, roundNumber, fid, f, resultWinner).value)
  {
    var zero := Placement(0, 0, 0, roundNumber, Eliminated);
    var t0 := WithTeam(t, Some(f.team1), zero);
    WithZeroGood(t, Some(f.team1), zero);
    var t1 := WithTeam(t0, f.team2, zero);
    WithZeroGood(t0, f.team2, zero);
    var r := KnockoutFixture(t, roundNumber, fid, f, resultWinner);
    match Decide(fid, f, resultWinner)
    case NoResult =>
      assert r == Ok(t1);
    case MutualForfeit =>
      assert r == Ok(Eliminations(t1, Some(f.team1), f.team2));
    case Decided(w, l) =>
      assert r.Ok? ==> r == Ok(Advancement(t1, roundNumber, w, l));
  }

  /** Adding a team with no matches keeps the placements consistent. */
  lemma WithZeroGood(t: Table<Placement>, key: Option<Id>, zero: Placement)
    requires GoodPlacements(t) && zero.played == 0 && zero.won == 0 && zero.lost == 0
    ensures GoodPlacements(WithTeam(t, key, zero))
  {
  }

  /** Knockout statuses after one fixture between two distinct sides: a
      mutual forfeit eliminates both; otherwise the loser is eliminated and
      the winner is 'qualified' after a round numbered above 1 and 'winner'
      after round 1. */
  lemma KnockoutFixtureStatus(t: Table<Placement>, roundNumber: int, fid: Id, f: Fixture, resultWinner: map<Id, Option<Id>>)
    requires f.team2 != Some(f.team1)
    ensures var r := KnockoutFixture(t, roundNumber, fid, f, resultWinner);
      var d := Decide(fid, f, resultWinner);
      && (d.MutualForfeit? ==>
            r.Ok? && r.value.entries[Some(f.team1)].status == Eliminated && r.value.entries[f.team2].status == Eliminated)
      && (d.Decided? && d.winner in {Some(f.team1), f.team2} ==>
            && r.Ok?
            && r.value.entries[d.loser].status == Eliminated
            && r.value.entries[d.winner].status == (if roundNumber > 1 then Qualified else Winner)
            && r.value.entries[d.winner].lastRound == roundNumber)
  {
    var d := Decide(fid, f, resultWinner);
    if d.Decided? && d.winner in {Some(f.team1), f.team2} {
      DecidedSides(fid, f, resultWinner);
    }
  }

  function KnockoutStep(t: Table<Placement>, roundNumber: int, fx: (Id, Fixture), resultWinner: map<Id, Option<Id>>)
    : Result<Table<Placement>, StandingsError>
  {
    if Finished(fx.1.status) then KnockoutFixture(t, roundNumber, fx.0, fx.1, resultWinner) else Ok(t)
  }

  function KnockoutFold(t: Table<Placement>, roundNumber: int, fs: seq<(Id, Fixture)>, resultWinner: map<Id, Option<Id>>)
    : Result<Table<Placement>, StandingsError>
    decreases fs
  {
    if fs == [] then Ok(t)
    else match KnockoutStep(t, roundNumber, fs[0], resultWinner)
      case Err(e) => Err(e)
      case Ok(t1) => KnockoutFold(t1, roundNumber, fs[1..], resultWinner)
  }

  function KnockoutRounds(t: Table<Placement>, rounds: seq<RoundFixtures>, resultWinner: map<Id, Option<Id>>)
    : Result<Table<Placement>, StandingsError>
    decreases rounds, 1
  {
    if rounds == [] then Ok(t)
    else ThenKnockoutRounds(KnockoutFold(t, rounds[0].roundNumber, rounds[0].fixtures, resultWinner), rounds[1..], resultWinner)
  }

  function ThenKnockoutRounds(r: Result<Table<Placement>, StandingsError>, rounds: seq<RoundFixtures>, resultWinner: map<Id, Option<Id>>)
    : Result<Table<Placement>, StandingsError>
    decreases rounds, 2
  {
    match r
    case Err(e) => Err(e)
    case Ok(t) => KnockoutRounds(t, rounds, resultWinner)
  }

  lemma {:induction false} KnockoutFoldGood(t: Table<Placement>, roundNumber: int, fs: seq<(Id, Fixture)>, resultWinner: map<Id, Option<Id>>)
    requires GoodPlacements(t)
    decreases fs
    ensures KnockoutFold(t, roundNumber, fs, resultWinner).Ok? ==>
      GoodPlacements(KnockoutFold(t, roundNumber, fs, resultWinner).value)
  {
    if fs != [] {
      var s := KnockoutStep(t, roundNumber, fs[0], resultWinner);
      KnockoutFixtureGood(t, roundNumber, fs[0].0, fs[0].1, resultWinner);
      if s.Ok? {
        KnockoutFoldGood(s.value, roundNumber, fs[1..], resultWinner);
      }
    }
  }

  /** Every placement has as many matches played as won plus lost. */
  lemma {:induction false} KnockoutRoundsGood(t: Table<Placement>, rounds: seq<RoundFixtures>, resultWinner: map<Id, Option<Id>>)
    requires GoodPlacements(t)
    decreases rounds
    ensures KnockoutRounds(t, rounds, resultWinner).Ok? ==> GoodPlacements(KnockoutRounds(t, rounds, resultWinner).value)
  {
    if rounds != [] {
      var s := KnockoutFold(t, rounds[0].roundNumber, rounds[0].fixtures, resultWinner);
      KnockoutFoldGood(t, rounds[0].roundNumber, rounds[0].fixtures, resultWinner);
      if s.Ok? {
        KnockoutRoundsGood(s.value, rounds[1..], resultWinner);
      }
    }
  }

  function KnockoutRow(id: Id, name: string, p: Placement): TournamentTeam
  {
    TournamentTeam(id, name, p.played, p.won, p.lost, 0, p.status)
  }

  function KnockoutRows(entries: map<Option<Id>, Placement>, keys: seq<Option<Id>>, names: map<Id, string>)
    : (r: Result<seq<TournamentTeam>, StandingsError>)
    requires forall i :: 0 <= i < |keys| ==> keys[i] in entries
    ensures r.Err? <==> exists i :: 0 <= i < |keys| && Unnamed(keys[i], names)
    ensures r.Err? ==> r.error == TeamNotFound
    ensures r.Ok? ==> |r.value| == |keys|
    ensures r.Ok? ==> forall i :: 0 <= i < |keys| ==>
      && Some(r.value[i].teamId) == keys[i]
      && r.value[i] == KnockoutRow(keys[i].value, names[keys[i].value], entries[keys[i]])
  {
    if keys == [] then Ok([])
    else if Unnamed(keys[0], names) then Err(TeamNotFound)
    else match KnockoutRows(entries, keys[1..], names)
      case Err(e) => Err(e)
      case Ok(rows) => Ok([KnockoutRow(keys[0].value, names[keys[0].value], entries[keys[0]])] + rows)
  }

  function KnockoutTable(rounds: seq<RoundFixtures>, resultWinner: map<Id, Option<Id>>, names: map<Id, string>)
    : Result<seq<TournamentTeam>, StandingsError>
  {
    var empty: Table<Placement> := Table(map[], []);
    KnockoutRoundsGood(empty, rounds, resultWinner);
    match KnockoutRounds(empty, rounds, resultWinner)
    case Err(e) => Err(e)
    case Ok(t) => KnockoutRows(t.entries, t.order, names)
  }

  /** `(matches_won, -matches_lost, matches_played)`. */
  function KnockoutKey(row: TournamentTeam): Key
  {
    Key(row.won, -(row.lost as int), row.played)
  }

  /** `KnockoutStandingsCalculator.calculate_standings`; `rounds` are the
      knockout rounds ordered by descending round number. */
  function KnockoutStandings(rounds: seq<RoundFixtures>, resultWinner: map<Id, Option<Id>>, names: map<Id, string>)
    : Result<TournamentStandings, StandingsError>
  {
    match KnockoutTable(rounds, resultWinner, names)
    case Err(e) => Err(e)
    case Ok(rows) =>
      Ok(TournamentStandings(if rounds == [] then None else Some(rounds[|rounds| - 1].roundNumber), SortDesc(rows, KnockoutKey)))
  }

  /** The knockout standings are the dictionary's rows sorted by descending
      (wins, -losses, played), ties in dictionary order, with no points; the
      reported round is the last one processed. */
  lemma KnockoutStandingsOrdered(rounds: seq<RoundFixtures>, resultWinner: map<Id, Option<Id>>, names: map<Id, string>)
    ensures var s := KnockoutStandings(rounds, resultWinner, names);
      var rows := KnockoutTable(rounds, resultWinner, names);
      && (s.Ok? <==> rows.Ok?)
      && (s.Ok? ==>
            && (s.value.round.None? <==> rounds == [])
            && SortedDesc(s.value.teams, KnockoutKey)
            && multiset(s.value.teams) == multiset(rows.value)
            && (forall k :: WithKey(s.value.teams, KnockoutKey, k) == WithKey(rows.value, KnockoutKey, k))
            && (forall i :: 0 <= i < |s.value.teams| ==>
                  s.value.teams[i].points == 0 && s.value.teams[i].played == s.value.teams[i].won + s.value.teams[i].lost))
  {
    var rows := KnockoutTable(rounds, resultWinner, names);
    if rows.Ok? {
      var sorted := SortDesc(rows.value, KnockoutKey);
      SortDescCorrect(rows.value, KnockoutKey);
      forall k ensures WithKey(sorted, KnockoutKey, k) == WithKey(rows.value, KnockoutKey, k) {
        SortDescStable(rows.value, KnockoutKey, k);
      }
      KnockoutRowsConsistent(rounds, resultWinner, names);
      SortDescKeeps(rows.value, KnockoutKey, (x: TournamentTeam) => x.points == 0 && x.played == x.won + x.lost);
    }
  }

  /** Every row of the knockout table has no points and as many matches
      played as won and lost. */
  lemma KnockoutRowsConsistent(rounds: seq<RoundFixtures>, resultWinner: map<Id, Option<Id>>, names: map<Id, string>)
    ensures var rows := KnockoutTable(rounds, resultWinner, names);
      rows.Ok? ==> forall j :: 0 <= j < |rows.value| ==>
        rows.value[j].points == 0 && rows.value[j].played == rows.value[j].won + rows.value[j].lost
  {
    var rows := KnockoutTable(rounds, resultWinner, names);
    if rows.Ok? {
      var empty: Table<Placement> := Table(map[], []);
      KnockoutRoundsGood(empty, rounds, resultWinner);
      var t := KnockoutRounds(empty, rounds, resultWinner).value;
      forall j | 0 <= j < |rows.value|
        ensures rows.value[j].points == 0 && rows.value[j].played == rows.value[j].won + rows.value[j].lost
      {
        assert t.order[j] in t.entries;
      }
    }
  }

  /** `_process_knockout_fixture`, updating the dictionary `table` in place. */
  method ProcessKnockoutFixture(table: TeamTable<Placement>, fid: Id, f: Fixture, resultWinner: map<Id, Option<Id>>, roundNumber: int)
    returns (r: Outcome<StandingsError>)
    modifies table
    ensures var p := KnockoutFixture(old(table.Snapshot()), roundNumber, fid, f, resultWinner);
      && (p.Ok? ==> r.Pass? && table.Snapshot() == p.value)
      && (p.Err? ==> r == Fail(p.error))
  {
    var zero := Placement(0, 0, 0, roundNumber, Eliminated);
    table.InitTeam(Some(f.team1), zero);
    table.InitTeam(f.team2, zero);
    match Decide(fid, f, resultWinner) {
      case NoResult =>
        r := Pass;
      case MutualForfeit =>
        table.entries := table.entries[Some(f.team1) := Loses(table.entries[Some(f.team1)])];
        table.entries := table.entries[f.team2 := Loses(table.entries[f.team2])];
        r := Pass;
      case Decided(w, l) =>
        if w !in table.entries {
          return Fail(KeyError);
        }
        table.entries := table.entries[w := Advances(table.entries[w], roundNumber)];
        table.entries := table.entries[l := Loses(table.entries[l])];
        r := Pass;
    }
  }

  method ProcessKnockoutRound(table: TeamTable<Placement>, roundNumber: int, fs: seq<(Id, Fixture)>, resultWinner: map<Id, Option<Id>>)
    returns (r: Outcome<StandingsError>)
    modifies table
    ensures var p := KnockoutFold(old(table.Snapshot()), roundNumber, fs, resultWinner);
      && (p.Ok? ==> r.Pass? && table.Snapshot() == p.value)
      && (p.Err? ==> r == Fail(p.error))
  {
    ghost var total := KnockoutFold(table.Snapshot(), roundNumber, fs, resultWinner);
    var j := 0;
    while j < |fs|
      invariant 0 <= j <= |fs|
      invariant total == KnockoutFold(table.Snapshot(), roundNumber, fs[j..], resultWinner)
    {
      assert fs[j..][1..] == fs[j + 1..];
      if Finished(fs[j].1.status) {
        var o := ProcessKnockoutFixture(table, fs[j].0, fs[j].1, resultWinner, roundNumber);
        if o.Fail? {
          return o;
        }
      }
      j := j + 1;
    }
    r := Pass;
  }

  /** The round loop; `currentRound` is the number of the last round visited. */
  method TallyKnockout(table: TeamTable<Placement>, rounds: seq<RoundFixtures>, resultWinner: map<Id, Option<Id>>)
    returns (r: Outcome<StandingsError>, currentRound: Option<int>)
    modifies table
    ensures var p := KnockoutRounds(old(table.Snapshot()), rounds, resultWinner);
      && (p.Ok? ==> r.Pass? && table.Snapshot() == p.value)
      && (p.Err? ==> r == Fail(p.error))
    ensures r.Pass? ==> currentRound == if rounds == [] then None else Some(rounds[|rounds| - 1].roundNumber)
  {
    ghost var total := KnockoutRounds(table.Snapshot(), rounds, resultWinner);
    currentRound := None;
    var i := 0;
    while i < |rounds|
      invariant 0 <= i <= |rounds|
      invariant total == KnockoutRounds(table.Snapshot(), rounds[i..], resultWinner)
      invariant currentRound == if i == 0 then None else Some(rounds[i - 1].roundNumber)
    {
      currentRound := Some(rounds[i].roundNumber);
      assert rounds[i..][1..] == rounds[i + 1..];
      var o := ProcessKnockoutRound(table, rounds[i].roundNumber, rounds[i].fixtures, resultWinner);
      if o.Fail? {
        return o, currentRound;
      }
      i := i + 1;
    }
    r := Pass;
  }

  method KnockoutRowsOf(table: TeamTable<Placement>, names: map<Id, string>) returns (r: Result<seq<TournamentTeam>, StandingsError>)
    requires forall i :: 0 <= i < |table.order| ==> table.order[i] in table.entries
    ensures r == KnockoutRows(table.entries, table.order, names)
  {
    var rows: seq<TournamentTeam> := [];
    var k := 0;
    while k < |table.order|
      invariant 0 <= k <= |table.order| && |rows| == k
      invariant forall i :: 0 <= i < k ==>
        !Unnamed(table.order[i], names)
        && rows[i] == KnockoutRow(table.order[i].value, names[table.order[i].value], table.entries[table.order[i]])
    {
      var key := table.order[k];
      if Unnamed(key, names) {
        assert Unnamed(table.order[k], names);
        return Err(TeamNotFound);
      }
      rows := rows + [KnockoutRow(key.value, names[key.value], table.entries[key])];
      k := k + 1;
    }
    assert KnockoutRows(table.entries, table.order, names).Ok?;
    assert KnockoutRows(table.entries, table.order, names).value == rows;
    r := Ok(rows);
  }

  /** `KnockoutStandingsCalculator.calculate_standings`. */
  method CalculateKnockout(rounds: seq<RoundFixtures>, resultWinner: map<Id, Option<Id>>, names: map<Id, string>)
    returns (r: Result<TournamentStandings, StandingsError>)
    ensures r == KnockoutStandings(rounds, resultWinner, names)
  {
    var table := new TeamTable<Placement>();
    ghost var empty: Table<Placement> := Table(map[], []);
    assert table.Snapshot() == empty;
    var o, currentRound := TallyKnockout(table, rounds, resultWinner);
    if o.Fail? {
      return Err(o.error);
    }
    KnockoutRoundsGood(empty, rounds, resultWinner);
    var rows := KnockoutRowsOf(table, names);
    if rows.Err? {
      return Err(rows.error);
    }
    r := Ok(TournamentStandings(currentRound, SortDesc(rows.value, KnockoutKey)));
  }

  // ---------------------------------------------------------------- factory

  datatype Calculator = RegularCalculator | KnockoutCalculator

  /** `str.lower` on the tournament type names. Only ASCII letters are
      folded; `str.lower` folds other Unicode letters too, which makes no
      difference here because the type names are ASCII. */
  function Lower(s: string): (r: string)
    ensures |r| == |s|
    ensures forall i :: 0 <= i < |s| ==> ('A' <= s[i] <= 'Z' ==> r[i] as int == s[i] as int + 32)
    ensures forall i :: 0 <= i < |s| ==> (!('A' <= s[i] <= 'Z') ==> r[i] == s[i])
  {
    if s == [] then []
    else [if 'A' <= s[0] <= 'Z' then (s[0] as int + 32) as char else s[0]] + Lower(s[1..])
  }

  /** `get_standings_calculator`: 'regular' and 'knockout' in any letter case;
      anything else raises ValueError. */
  function GetStandingsCalculator(tournamentType: string): (r: Result<Calculator, StandingsError>)
    ensures r == Ok(RegularCalculator) <==> Lower(tournamentType) == "regular"
    ensures r == Ok(KnockoutCalculator) <==> Lower(tournamentType) == "knockout"
    ensures r.Err? <==> Lower(tournamentType) !in {"regular", "knockout"}
  {
    var key := Lower(tournamentType);
    if key == "regular" then Ok(RegularCalculator)
    else if key == "knockout" then Ok(KnockoutCalculator)
    else Err(NoCalculator)
  }

  /** The value of each tournament type, `TournamentType(...).value`. */
  function TypeName(t: TournamentType): string
  {
    match t
    case Regular => "regular"
    case Knockout => "knockout"
    case Pug => "pug"
  }

  /** Lower-casing twice is lower-casing once. */
  lemma {:induction false} LowerIdempotent(s: string)
    ensures Lower(Lower(s)) == Lower(s)
  {
    if s != [] {
      LowerIdempotent(s[1..]);
      assert Lower(s)[1..] == Lower(s[1..]);
    }
  }

  /** A string without upper-case letters is its own lower case. */
  lemma {:induction false} LowerOfLowercase(s: string)
    requires forall i :: 0 <= i < |s| ==> !('A' <= s[i] <= 'Z')
    ensures Lower(s) == s
  {
    if s != [] {
      LowerOfLowercase(s[1..]);
    }
  }

  /** The lookup ignores letter case. */
  lemma CalculatorIgnoresCase(s: string)
    ensures GetStandingsCalculator(s) == GetStandingsCalculator(Lower(s))
  {
    LowerIdempotent(s);
  }

  /** REGULAR and KNOCKOUT tournaments have a calculator and PUG tournaments
      do not. */
  lemma CalculatorPerType(t: TournamentType)
    ensures GetStandingsCalculator(TypeName(t)).Ok? <==> t != Pug
  {
    match t
    case Regular => LowerOfLowercase("regular");
    case Knockout => LowerOfLowercase("knockout");
    case Pug =>
      LowerOfLowercase("pug");
      assert |"pug"| != |"regular"| && |"pug"| != |"knockout"|;
  }
}
