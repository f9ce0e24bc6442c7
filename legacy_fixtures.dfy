/** The season fixture engine that predates tournaments: a season's fixtures,
    grouped into rounds, and its round-robin group stage.

    A database round row and the fixtures that point at it are modelled
    together as a `ScheduledRound`; the round's database id is not modelled.
    `datetime.now()` is the parameter `start`; times are whole days. */
module LegacyFixtures {
  import opened Common
  import GenerationStrategies

  /** A row of the `fixtures` table. `team2` is None only for a knockout bye. */
  datatype SeasonFixture = SeasonFixture(team1: Id, team2: Option<Id>, seasonId: Id, scheduledAt: Time)

  datatype RoundType = GroupStage | Knockout

  /** A row of the `rounds` table; the utilities version sets no type. */
  datatype SeasonRound = SeasonRound(seasonId: Id, roundNumber: int, rtype: Option<RoundType>)

  /** A round together with the fixtures created for it. */
  datatype ScheduledRound = ScheduledRound(round: SeasonRound, fixtures: seq<SeasonFixture>)

  const DaysBetweenRounds: int := 7

  /** `t + timedelta(days=days)`. */
  function AddDays(t: Time, days: int): Time
  {
    t + days
  }

  // ------------------------------------------------ create_fixture_for_season

  datatype CreateFixtureError = InvalidDate | Team1NoExist | Team2NoExist | InvalidSeason | MissingRoundKey

  /** `FixtureCreateModel`: names, and the time as text. */
  datatype FixtureRequest = FixtureRequest(season: string, team1: string, team2: string, scheduledAt: string)

  /** The checks of `create_fixture_for_season`, in their order. `parsed` is
      what parsing `scheduled_at` with "%Y-%m-%d %H:%M" gives (None when it
      raises ValueError); `teamsByName` and `seasonsByName` are the name
      lookups (the first row with that name). */
  function CreateCheck(parsed: Option<Time>, teamsByName: map<string, Id>, seasonsByName: map<string, Id>, req: FixtureRequest): (r: Outcome<CreateFixtureError>)
    ensures r.Pass? <==> parsed.Some? && req.team1 in teamsByName && req.team2 in teamsByName && req.season in seasonsByName
    ensures parsed.None? ==> r == Fail(InvalidDate)
    ensures parsed.Some? && req.team1 !in teamsByName ==> r == Fail(Team1NoExist)
    ensures parsed.Some? && req.team1 in teamsByName && req.team2 !in teamsByName ==> r == Fail(Team2NoExist)
    ensures r.Fail? ==> r.error != MissingRoundKey
  {
    if parsed.None? then Fail(InvalidDate)
    else if req.team1 !in teamsByName then Fail(Team1NoExist)
    else if req.team2 !in teamsByName then Fail(Team2NoExist)
    else if req.season !in seasonsByName then Fail(InvalidSeason)
    else Pass
  }

  /** `create_fixture_for_season` as written: once every check passes it reads
      the key 'round' of a dictionary that never had one, which raises
      KeyError (the error `MissingRoundKey`) before the fixture is built. */
  function CreateFixtureAsWritten(parsed: Option<Time>, teamsByName: map<string, Id>, seasonsByName: map<string, Id>, req: FixtureRequest): Result<SeasonFixture, CreateFixtureError>
  {
    var check := CreateCheck(parsed, teamsByName, seasonsByName, req);
    if check.Fail? then Err(check.error) else Err(MissingRoundKey)
  }

  /** As written, no request ever creates a fixture, and a request that passes
      every check is exactly one that ends in KeyError. */
  lemma CreateFixtureAsWrittenNeverCreates(parsed: Option<Time>, teamsByName: map<string, Id>, seasonsByName: map<string, Id>, req: FixtureRequest)
    ensures CreateFixtureAsWritten(parsed, teamsByName, seasonsByName, req).Err?
    ensures CreateFixtureAsWritten(parsed, teamsByName, seasonsByName, req) == Err(MissingRoundKey)
        <==> CreateCheck(parsed, teamsByName, seasonsByName, req).Pass?
  {
  }

  /** A well-formed request between two existing teams of an existing season
      ends in KeyError. */
  lemma CreateFixtureAsWrittenExample()
    ensures CreateFixtureAsWritten(Some(10), map["alpha" := 1, "bravo" := 2], map["s1" := 7],
                                   FixtureRequest("s1", "alpha", "bravo", "2024-01-10 18:00")) == Err(MissingRoundKey)
  {
  }

  /** `create_fixture_for_season` with the stray dictionary read removed: the
      fixture between the two named teams in the named season, at the parsed
      time. */
  function CreateFixture(parsed: Option<Time>, teamsByName: map<string, Id>, seasonsByName: map<string, Id>, req: FixtureRequest): (r: Result<SeasonFixture, CreateFixtureError>)
    ensures r.Ok? <==> CreateCheck(parsed, teamsByName, seasonsByName, req).Pass?
    ensures r.Err? ==> r == Err(CreateCheck(parsed, teamsByName, seasonsByName, req).error)
    ensures r.Ok? ==> r.value == SeasonFixture(teamsByName[req.team1], Some(teamsByName[req.team2]),
                                               seasonsByName[req.season], parsed.value)
  {
    var check := CreateCheck(parsed, teamsByName, seasonsByName, req);
    if check.Fail? then Err(check.error)
    else Ok(SeasonFixture(teamsByName[req.team1], Some(teamsByName[req.team2]), seasonsByName[req.season], parsed.value))
  }

  /** The corrected operation refuses exactly what the written one refuses, for
      the same reason, and creates a fixture exactly where the written one
      raises KeyError. */
  lemma CreateFixtureCorrectsAsWritten(parsed: Option<Time>, teamsByName: map<string, Id>, seasonsByName: map<string, Id>, req: FixtureRequest)
    ensures CreateFixture(parsed, teamsByName, seasonsByName, req).Ok?
        <==> CreateFixtureAsWritten(parsed, teamsByName, seasonsByName, req) == Err(MissingRoundKey)
    ensures CreateFixture(parsed, teamsByName, seasonsByName, req).Err?
        ==> CreateFixture(parsed, teamsByName, seasonsByName, req) == CreateFixtureAsWritten(parsed, teamsByName, seasonsByName, req)
  {
  }

  // ------------------------------------------------------------ round robin

  /** One rotation of the padded list: the first entry stays, the last moves
      to the second place and the others shift right by one
      (`RotateSlices` shows it is `[t[0]] + [t[-1]] + t[1:-1]`). */
  function Rotate<T>(ts: seq<T>): (r: seq<T>)
    requires |ts| >= 2
    ensures |r| == |ts|
  {
    seq(|ts|, p requires 0 <= p < |ts| => if p == 0 then ts[0] else if p == 1 then ts[|ts| - 1] else ts[p - 1])
  }

  /** The rotation is the slicing `[t[0]] + [t[-1]] + t[1:-1]` and loses or
      duplicates nothing. */
  lemma RotateSlices<T>(ts: seq<T>)
    requires |ts| >= 2
    ensures Rotate(ts) == [ts[0]] + [ts[|ts| - 1]] + ts[1..|ts| - 1]
    ensures multiset(Rotate(ts)) == multiset(ts)
  {
    var r := [ts[0]] + [ts[|ts| - 1]] + ts[1..|ts| - 1];
    assert Rotate(ts) == r;
    calc {
      multiset(r);
      multiset([ts[0]]) + multiset([ts[|ts| - 1]]) + multiset(ts[1..|ts| - 1]);
      multiset([ts[0]] + ts[1..|ts| - 1] + [ts[|ts| - 1]]);
      { assert [ts[0]] + ts[1..|ts| - 1] + [ts[|ts| - 1]] == ts; }
      multiset(ts);
    }
  }

  /** The list after `k` rotations. */
  function Rotated<T>(ts: seq<T>, k: nat): (r: seq<T>)
    requires k == 0 || |ts| >= 2
    ensures |r| == |ts|
  {
    if k == 0 then ts else Rotate(Rotated(ts, k - 1))
  }

  /** Every rotation keeps the first entry in place and is a permutation. */
  lemma {:induction false} RotatedKeepsFirst<T>(ts: seq<T>, k: nat)
    requires |ts| >= 2
    ensures Rotated(ts, k)[0] == ts[0]
    ensures multiset(Rotated(ts, k)) == multiset(ts)
  {
    if k > 0 {
      RotatedKeepsFirst(ts, k - 1);
      RotateSlices(Rotated(ts, k - 1));
    }
  }

  /** Both fixtures of slot `j`: `ts[j]` at home on `home`, then the return
      fixture with the sides swapped on `away`. */
  function Legs(ts: seq<Option<Id>>, j: nat, seasonId: Id, home: Time, away: Time): (r: seq<SeasonFixture>)
    requires j < |ts| / 2 && ts[j].Some? && ts[|ts| - 1 - j].Some?
    ensures |r| == 2
  {
    [SeasonFixture(ts[j].value, ts[|ts| - 1 - j], seasonId, home),
     SeasonFixture(ts[|ts| - 1 - j].value, ts[j], seasonId, away)]
  }

  /** The fixtures of slots `0 .. i - 1`, slot by slot, leaving out byes. */
  function RoundLegs(ts: seq<Option<Id>>, i: nat, seasonId: Id, home: Time, away: Time): (r: seq<SeasonFixture>)
    requires i <= |ts| / 2
  {
    if i == 0 then []
    else RoundLegs(ts, i - 1, seasonId, home, away)
         + (if ts[i - 1].Some? && ts[|ts| - i].Some? then Legs(ts, i - 1, seasonId, home, away) else [])
  }

  /** No team occupies two places of the list. */
  predicate DistinctTeams(ts: seq<Option<Id>>)
  {
    forall p, q :: 0 <= p < |ts| && 0 <= q < |ts| && p != q && ts[p].Some? ==> ts[p] != ts[q]
  }

  /** The two sides of a fixture. */
  function Sides(f: SeasonFixture): set<Option<Id>>
  {
    {Some(f.team1), f.team2}
  }

  /** A fixture of a round is one of the two legs of a slot whose entries
      are both teams, and every such slot has both its legs in the round. */
  lemma {:induction false} RoundLegsMembers(ts: seq<Option<Id>>, i: nat, seasonId: Id, home: Time, away: Time, f: SeasonFixture)
    requires i <= |ts| / 2
    ensures f in RoundLegs(ts, i, seasonId, home, away) <==>
      exists j :: 0 <= j < i && ts[j].Some? && ts[|ts| - 1 - j].Some? && f in Legs(ts, j, seasonId, home, away)
  {
    if i > 0 {
      RoundLegsMembers(ts, i - 1, seasonId, home, away, f);
    }
  }

  /** The slot a fixture of the first `i` slots comes from. */
  lemma {:induction false} SlotOf(ts: seq<Option<Id>>, i: nat, seasonId: Id, home: Time, away: Time, f: SeasonFixture) returns (j: nat)
    requires i <= |ts| / 2 && f in RoundLegs(ts, i, seasonId, home, away)
    ensures j < i && ts[j].Some? && ts[|ts| - 1 - j].Some? && f in Legs(ts, j, seasonId, home, away)
  {
    if ts[i - 1].Some? && ts[|ts| - i].Some? && f in Legs(ts, i - 1, seasonId, home, away) {
      j := i - 1;
    } else {
      j := SlotOf(ts, i - 1, seasonId, home, away, f);
    }
  }

  /** Every fixture of a round has its return leg in the same round: the same
      two teams with the sides swapped, one leg on `home` and the other on
      `away`. */
  lemma ReturnLegInRound(ts: seq<Option<Id>>, seasonId: Id, home: Time, away: Time, f: SeasonFixture)
    requires f in RoundLegs(ts, |ts| / 2, seasonId, home, away)
    ensures f.team2.Some? && f.scheduledAt in {home, away}
    ensures SeasonFixture(f.team2.value, Some(f.team1), seasonId, if f.scheduledAt == home then away else home)
              in RoundLegs(ts, |ts| / 2, seasonId, home, away)
            || home == away
  {
    RoundLegsMembers(ts, |ts| / 2, seasonId, home, away, f);
    var j :| 0 <= j < |ts| / 2 && ts[j].Some? && ts[|ts| - 1 - j].Some? && f in Legs(ts, j, seasonId, home, away);
    var g := SeasonFixture(f.team2.value, Some(f.team1), seasonId, if f.scheduledAt == home then away else home);
    if home != away {
      assert g in Legs(ts, j, seasonId, home, away);
      RoundLegsMembers(ts, |ts| / 2, seasonId, home, away, g);
    }
  }

  /** Two fixtures of slots `j` and `j'` of a list without repeated teams:
      neither sets a team against itself, and if they share a team they
      are played between the same two teams. */
  lemma SlotsMatch(ts: seq<Option<Id>>, j: nat, j': nat, seasonId: Id, home: Time, away: Time, f: SeasonFixture, g: SeasonFixture)
    requires DistinctTeams(ts)
    requires j < |ts| / 2 && ts[j].Some? && ts[|ts| - 1 - j].Some? && f in Legs(ts, j, seasonId, home, away)
    requires j' < |ts| / 2 && ts[j'].Some? && ts[|ts| - 1 - j'].Some? && g in Legs(ts, j', seasonId, home, away)
    ensures Some(f.team1) != f.team2
    ensures !(Sides(f) !! Sides(g)) ==> Sides(f) == Sides(g)
  {
    var n := |ts|;
    assert Sides(f) == {ts[j], ts[n - 1 - j]};
    assert Sides(g) == {ts[j'], ts[n - 1 - j']};
    assert ts[j] != ts[n - 1 - j];
    if j != j' {
      assert ts[j] != ts[j'] && ts[j] != ts[n - 1 - j'];
      assert ts[n - 1 - j] != ts[j'] && ts[n - 1 - j] != ts[n - 1 - j'];
    }
  }

  /** With no team listed twice, a round is a matching: two fixtures of the
      round that share a team are legs of the same pairing, so no team meets
      two opponents in one round and no team meets itself. */
  lemma RoundIsMatching(ts: seq<Option<Id>>, seasonId: Id, home: Time, away: Time, f: SeasonFixture, g: SeasonFixture)
    requires DistinctTeams(ts)
    requires f in RoundLegs(ts, |ts| / 2, seasonId, home, away) && g in RoundLegs(ts, |ts| / 2, seasonId, home, away)
    ensures Some(f.team1) != f.team2
    ensures !(Sides(f) !! Sides(g)) ==> Sides(f) == Sides(g)
  {
    var j := SlotOf(ts, |ts| / 2, seasonId, home, away, f);
    var j' := SlotOf(ts, |ts| / 2, seasonId, home, away, g);
    SlotsMatch(ts, j, j', seasonId, home, away, f, g);
  }

  /** Round `k` (0-based) played with list `ts`: numbered `k + 1`, its home
      fixtures on `home` and its return fixtures on `away`. */
  function RoundOf(ts: seq<Option<Id>>, k: nat, seasonId: Id, home: Time, away: Time, rtype: Option<RoundType>): ScheduledRound
  {
    ScheduledRound(SeasonRound(seasonId, k + 1, rtype), RoundLegs(ts, |ts| / 2, seasonId, home, away))
  }

  /** Round `k` (0-based) of the group stage for the padded list `ts0`:
      played with the list rotated `k` times, its home fixtures `7k` days
      after `start` and its return fixtures `7(n - 1)` days after those. */
  function RoundAt(ts0: seq<Option<Id>>, k: nat, seasonId: Id, start: Time, rtype: Option<RoundType>): ScheduledRound
    requires |ts0| >= 2
  {
    RoundOf(Rotated(ts0, k), k, seasonId, AddDays(start, DaysBetweenRounds * k),
            AddDays(AddDays(start, DaysBetweenRounds * k), DaysBetweenRounds * (|ts0| - 1)), rtype)
  }

  /** The first `c` rounds of the group stage, numbered `1 .. c` in order. */
  function Rounds(ts0: seq<Option<Id>>, c: nat, seasonId: Id, start: Time, rtype: Option<RoundType>): (r: seq<ScheduledRound>)
    requires |ts0| >= 2
    ensures |r| == c
    ensures forall k :: 0 <= k < c ==> r[k].round == SeasonRound(seasonId, k + 1, rtype)
  {
    if c == 0 then [] else Rounds(ts0, c - 1, seasonId, start, rtype) + [RoundAt(ts0, c - 1, seasonId, start, rtype)]
  }

  /** Entry `k` of the first `c` rounds is round `k`. */
  lemma {:induction false} RoundsAt(ts0: seq<Option<Id>>, c: nat, seasonId: Id, start: Time, rtype: Option<RoundType>, k: nat)
    requires |ts0| >= 2 && k < c
    ensures Rounds(ts0, c, seasonId, start, rtype)[k] == RoundAt(ts0, k, seasonId, start, rtype)
  {
    if k < c - 1 {
      RoundsAt(ts0, c - 1, seasonId, start, rtype, k);
    }
  }

  /** The whole group stage for a padded list of `n` entries: `n - 1`
      rounds, none for fewer than two entries. */
  function Schedule(ts0: seq<Option<Id>>, seasonId: Id, start: Time, rtype: Option<RoundType>): (r: seq<ScheduledRound>)
    ensures |r| == if |ts0| < 2 then 0 else |ts0| - 1
  {
    if |ts0| < 2 then [] else Rounds(ts0, |ts0| - 1, seasonId, start, rtype)
  }

  /** The inner loop of one round: slot by slot, the two fixtures of every
      slot that is not a bye. */
  method RoundFixtures(ts: seq<Option<Id>>, seasonId: Id, home: Time, away: Time) returns (fixtures: seq<SeasonFixture>)
    ensures fixtures == RoundLegs(ts, |ts| / 2, seasonId, home, away)
  {
    var n := |ts|;
    fixtures := [];
    var i := 0;
    while i < n / 2
      invariant 0 <= i <= n / 2
      invariant fixtures == RoundLegs(ts, i, seasonId, home, away)
    {
      var team1, team2 := ts[i], ts[n - 1 - i];
      if team1.Some? && team2.Some? {
        fixtures := fixtures + [SeasonFixture(team1.value, team2, seasonId, home), SeasonFixture(team2.value, team1, seasonId, away)];
      }
      i := i + 1;
    }
  }

  /** The group-stage loop shared by both versions of
      `create_round_robin_fixtures_with_rounds`, on the list already padded
      with a bye: for each of the `n - 1` rounds pair entry `i` with entry
      `n - 1 - i`, give each real pair a home and a return fixture, rotate
      the list and move on seven days. */
  method RoundRobinRounds(ts0: seq<Option<Id>>, seasonId: Id, start: Time, rtype: Option<RoundType>) returns (rounds: seq<ScheduledRound>)
    ensures rounds == Schedule(ts0, seasonId, start, rtype)
  {
    if |ts0| < 2 {
      return [];  // `range(n - 1)` is empty
    }
    rounds := RoundLoop(ts0, seasonId, start, rtype);
  }

  /** The round loop proper, for a list of at least two entries. */
  method RoundLoop(ts0: seq<Option<Id>>, seasonId: Id, start: Time, rtype: Option<RoundType>) returns (rounds: seq<ScheduledRound>)
    requires |ts0| >= 2
    ensures rounds == Rounds(ts0, |ts0| - 1, seasonId, start, rtype)
  {
    var ts := ts0;
    var date := start;
    rounds := [];
    var k := 0;
    while k < |ts0| - 1
      invariant k <= |ts0| - 1 && ts == Rotated(ts0, k) && date == AddDays(start, DaysBetweenRounds * k)
      invariant rounds == Rounds(ts0, k, seasonId, start, rtype)
    {
      ts, date, rounds := PlayRound(ts0, k, ts, date, rounds, seasonId, start, rtype);
      k := k + 1;
    }
  }

  /** The body of the round loop: round `k` is played with the list as
      rotated so far, home fixtures on `date` and return fixtures
      `7(n - 1)` days later; then the list rotates and the date moves on a
      week. */
  method PlayRound(ts0: seq<Option<Id>>, k: nat, ts: seq<Option<Id>>, date: Time, rounds: seq<ScheduledRound>,
                   seasonId: Id, start: Time, rtype: Option<RoundType>)
    returns (ts': seq<Option<Id>>, date': Time, rounds': seq<ScheduledRound>)
    requires |ts0| >= 2 && ts == Rotated(ts0, k) && date == AddDays(start, DaysBetweenRounds * k)
    requires rounds == Rounds(ts0, k, seasonId, start, rtype)
    ensures ts' == Rotated(ts0, k + 1) && date' == AddDays(start, DaysBetweenRounds * (k + 1))
    ensures rounds' == Rounds(ts0, k + 1, seasonId, start, rtype)
  {
    var fixtures := RoundFixtures(ts, seasonId, date, AddDays(date, DaysBetweenRounds * (|ts| - 1)));
    rounds' := rounds + [ScheduledRound(SeasonRound(seasonId, k + 1, rtype), fixtures)];
    ts' := Rotate(ts);
    date' := AddDays(date, DaysBetweenRounds);
  }

  /** Rotation keeps every team in exactly one place. */
  lemma RotateDistinct(ts: seq<Option<Id>>)
    requires |ts| >= 2 && DistinctTeams(ts)
    ensures DistinctTeams(Rotate(ts))
  {
    var r := Rotate(ts);
    forall p, q | 0 <= p < |r| && 0 <= q < |r| && p != q && r[p].Some?
      ensures r[p] != r[q]
    {
      var p' := if p == 0 then 0 else if p == 1 then |ts| - 1 else p - 1;
      var q' := if q == 0 then 0 else if q == 1 then |ts| - 1 else q - 1;
      assert r[p] == ts[p'] && r[q] == ts[q'];
    }
  }

  lemma {:induction false} RotatedDistinct(ts: seq<Option<Id>>, k: nat)
    requires |ts| >= 2 && DistinctTeams(ts)
    ensures DistinctTeams(Rotated(ts, k))
  {
    if k > 0 {
      RotatedDistinct(ts, k - 1);
      RotateDistinct(Rotated(ts, k - 1));
    }
  }

  /** Every round of the group stage of a list without repeated teams is a
      matching, and every fixture on the round's home date has its return
      fixture, sides swapped, `7(n - 1)` days later in the same round. */
  lemma ScheduleRoundsAreMatchings(ts0: seq<Option<Id>>, seasonId: Id, start: Time, rtype: Option<RoundType>, k: nat,
                                   f: SeasonFixture, g: SeasonFixture)
    requires |ts0| >= 2 && k < |ts0| - 1 && DistinctTeams(ts0)
    requires f in Schedule(ts0, seasonId, start, rtype)[k].fixtures && g in Schedule(ts0, seasonId, start, rtype)[k].fixtures
    ensures Some(f.team1) != f.team2
    ensures !(Sides(f) !! Sides(g)) ==> Sides(f) == Sides(g)
    ensures f.scheduledAt == AddDays(start, DaysBetweenRounds * k)
            ==> f.team2.Some? && SeasonFixture(f.team2.value, Some(f.team1), seasonId, AddDays(f.scheduledAt, DaysBetweenRounds * (|ts0| - 1)))
                in Schedule(ts0, seasonId, start, rtype)[k].fixtures
  {
    RoundsAt(ts0, |ts0| - 1, seasonId, start, rtype, k);
    RotatedDistinct(ts0, k);
    var ts := Rotated(ts0, k);
    var home := AddDays(start, DaysBetweenRounds * k);
    var away := AddDays(home, DaysBetweenRounds * (|ts0| - 1));
    RoundIsMatching(ts, seasonId, home, away, f, g);
    ReturnLegInRound(ts, seasonId, home, away, f);
  }

  datatype GenerationError = FixtureGenerationError

  /** `FixtureService.create_round_robin_fixtures_with_rounds`: raises
      FixtureGenerationError when fewer than two teams qualify; otherwise the
      rounds are GROUP_STAGE rounds. */
  method CreateRoundRobin(teamIds: seq<Id>, seasonId: Id, start: Time) returns (r: Result<seq<ScheduledRound>, GenerationError>)
    ensures r.Err? <==> |teamIds| < 2
    ensures r.Ok? ==> r.value == Schedule(GenerationStrategies.WithBye(teamIds), seasonId, start, Some(GroupStage))
    ensures r.Ok? ==> |r.value| == |teamIds| + |teamIds| % 2 - 1
  {
    if |teamIds| < 2 {
      return Err(FixtureGenerationError);
    }
    var rounds := RoundRobinRounds(GenerationStrategies.WithBye(teamIds), seasonId, start, Some(GroupStage));
    return Ok(rounds);
  }

  /** The utilities version of `create_round_robin_fixtures_with_rounds`:
      no minimum is checked and the rounds carry no type, so fewer than two
      teams give no rounds at all. */
  method CreateRoundRobinUntyped(teamIds: seq<Id>, seasonId: Id, start: Time) returns (rounds: seq<ScheduledRound>)
    ensures rounds == Schedule(GenerationStrategies.WithBye(teamIds), seasonId, start, None)
    ensures |teamIds| < 2 ==> forall k :: 0 <= k < |rounds| ==> rounds[k].fixtures == []
  {
    rounds := RoundRobinRounds(GenerationStrategies.WithBye(teamIds), seasonId, start, None);
    if |teamIds| == 1 {
      NoPairsWithBye(teamIds, seasonId, start);
    }
  }

  /** A single team padded with the bye plays nobody. */
  lemma NoPairsWithBye(teamIds: seq<Id>, seasonId: Id, start: Time)
    requires |teamIds| == 1
    ensures forall k :: 0 <= k < |Schedule(GenerationStrategies.WithBye(teamIds), seasonId, start, None)| ==>
      Schedule(GenerationStrategies.WithBye(teamIds), seasonId, start, None)[k].fixtures == []
  {
    var ts0 := GenerationStrategies.WithBye(teamIds);
    assert |ts0| == 2 && ts0[1] == None;
    assert RoundLegs(ts0, 1, seasonId, start, start + DaysBetweenRounds) == [];
  }
}
