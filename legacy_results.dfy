/** The knockout half of the legacy season engine: the 3/1/0 points table
    of the group stage, the winners of a knockout round, knockout seeding,
    the one-result-per-fixture store and the rosters that qualify a team. */
module LegacyResults {
  import opened Common
  import opened StableSort
  import opened LegacyFixtures

  // ------------------------------------------------------------- points table

  /** A group-stage result joined with its fixture. */
  datatype ScoredResult = ScoredResult(team1: Id, team2: Id, score1: int, score2: int)

  /** What one result is worth to team `t`: 3 for a win, 1 to each side for a
      draw, nothing for a loss or for a team that did not play. */
  function Gain(r: ScoredResult, t: Id): nat
  {
    if r.score1 > r.score2 then (if t == r.team1 then 3 else 0)
    else if r.score1 < r.score2 then (if t == r.team2 then 3 else 0)
    else (if t == r.team1 then 1 else 0) + (if t == r.team2 then 1 else 0)
  }

  /** The points of team `t` over a list of results. */
  function Points(rs: seq<ScoredResult>, t: Id): nat
  {
    if rs == [] then 0 else Points(rs[..|rs| - 1], t) + Gain(rs[|rs| - 1], t)
  }

  /** Taking one more result adds what it is worth. */
  lemma PointsStep(rs: seq<ScoredResult>, i: nat)
    requires i < |rs|
    ensures rs[..i + 1][..i] == rs[..i]
    ensures forall t :: Points(rs[..i + 1], t) == Points(rs[..i], t) + Gain(rs[i], t)
    ensures Appearance(rs[..i + 1]) == AddKey(AddKey(Appearance(rs[..i]), rs[i].team1), rs[i].team2)
  {
    assert rs[..i + 1][..i] == rs[..i];
  }

  /** `x` added at the end of `s` unless it is already there. */
  function AddKey(s: seq<Id>, x: Id): seq<Id>
  {
    if x in s then s else s + [x]
  }

  /** The teams of a list of results in the order they first appear, which
      is the key order of the dictionary the source fills. */
  function Appearance(rs: seq<ScoredResult>): seq<Id>
  {
    if rs == [] then [] else AddKey(AddKey(Appearance(rs[..|rs| - 1]), rs[|rs| - 1].team1), rs[|rs| - 1].team2)
  }

  /** Team `t` played in one of the results. */
  predicate Played(rs: seq<ScoredResult>, t: Id)
  {
    exists i :: 0 <= i < |rs| && (rs[i].team1 == t || rs[i].team2 == t)
  }

  /** A team appears in a list of results iff it played one of them, and it
      appears once. */
  lemma AppearanceTeams(rs: seq<ScoredResult>)
    ensures forall t :: t in Appearance(rs) <==> Played(rs, t)
    ensures forall i, j :: 0 <= i < j < |Appearance(rs)| ==> Appearance(rs)[i] != Appearance(rs)[j]
  {
    AppearancePlayed(rs);
    AppearanceDistinct(rs);
  }

  /** No team appears twice. */
  lemma {:induction false} AppearanceDistinct(rs: seq<ScoredResult>)
    ensures forall i, j :: 0 <= i < j < |Appearance(rs)| ==> Appearance(rs)[i] != Appearance(rs)[j]
  {
    if rs != [] {
      AppearanceDistinct(rs[..|rs| - 1]);
    }
  }

  /** The teams that appear are those that played. */
  lemma {:induction false} AppearancePlayed(rs: seq<ScoredResult>)
    ensures forall t :: t in Appearance(rs) <==> Played(rs, t)
  {
    if rs != [] {
      var init := rs[..|rs| - 1];
      AppearancePlayed(init);
      forall t | t in Appearance(rs)
        ensures exists i :: 0 <= i < |rs| && (rs[i].team1 == t || rs[i].team2 == t)
      {
        if t !in Appearance(init) {
          assert rs[|rs| - 1].team1 == t || rs[|rs| - 1].team2 == t;
        } else {
          var i :| 0 <= i < |init| && (init[i].team1 == t || init[i].team2 == t);
          assert rs[i] == init[i];
        }
      }
      forall t | Played(rs, t)
        ensures t in Appearance(rs)
      {
        var i :| 0 <= i < |rs| && (rs[i].team1 == t || rs[i].team2 == t);
        if i < |init| {
          assert init[i] == rs[i];
        }
      }
    }
  }

  /** One row of the ranking: a team and its points. */
  datatype TeamScore = TeamScore(team: Id, points: nat)

  /** The dictionary's items in key order. */
  function Items(rs: seq<ScoredResult>): (r: seq<TeamScore>)
    ensures |r| == |Appearance(rs)|
  {
    seq(|Appearance(rs)|, i requires 0 <= i < |Appearance(rs)| => TeamScore(Appearance(rs)[i], Points(rs, Appearance(rs)[i])))
  }

  /** `sorted(..., key=lambda item: item[1], reverse=True)`. */
  function ScoreKey(e: TeamScore): Key
  {
    Key(e.points, 0, 0)
  }

  /** `scores` and `order` are the dictionary and its key order after the
      results `rs`: every team that played, in order of appearance, with
      its points. */
  ghost predicate Tally(scores: map<Id, nat>, order: seq<Id>, rs: seq<ScoredResult>)
  {
    && order == Appearance(rs)
    && (forall t :: t in scores <==> t in order)
    && (forall t :: t in scores ==> scores[t] == Points(rs, t))
    && (forall t :: t !in scores ==> Points(rs, t) == 0)
  }

  /** Adding the teams of one more result and what it is worth to each
      keeps the tally. */
  lemma TallyStep(rs: seq<ScoredResult>, i: nat, before: map<Id, nat>, after: map<Id, nat>, order: seq<Id>, order': seq<Id>)
    requires i < |rs| && Tally(before, order, rs[..i])
    requires order' == AddKey(AddKey(order, rs[i].team1), rs[i].team2)
    requires forall t :: t in after <==> t in before || t == rs[i].team1 || t == rs[i].team2
    requires forall t :: t in after ==> after[t] == (if t in before then before[t] else 0) + Gain(rs[i], t)
    ensures Tally(after, order', rs[..i + 1])
  {
    PointsStep(rs, i);
  }

  /** The body of the loop of `determine_team_scores`: both teams of the
      result get an entry, 0 if they had none, and the result's points are
      added to them. */
  method Credit(scores: map<Id, nat>, order: seq<Id>, r: ScoredResult) returns (scores': map<Id, nat>, order': seq<Id>)
    requires forall t :: t in scores <==> t in order
    ensures order' == AddKey(AddKey(order, r.team1), r.team2)
    ensures forall t :: t in scores' <==> t in scores || t == r.team1 || t == r.team2
    ensures forall t :: t in scores' ==> scores'[t] == (if t in scores then scores[t] else 0) + Gain(r, t)
  {
    scores', order' := scores, order;
    if r.team1 !in scores' {
      order' := order' + [r.team1];
    }
    scores' := scores'[r.team1 := if r.team1 in scores' then scores'[r.team1] else 0];
    if r.team2 !in scores' {
      order' := order' + [r.team2];
    }
    scores' := scores'[r.team2 := if r.team2 in scores' then scores'[r.team2] else 0];
    if r.score1 > r.score2 {
      scores' := scores'[r.team1 := scores'[r.team1] + 3];
    } else if r.score1 < r.score2 {
      scores' := scores'[r.team2 := scores'[r.team2] + 3];
    } else {
      scores' := scores'[r.team1 := scores'[r.team1] + 1];
      scores' := scores'[r.team2 := scores'[r.team2] + 1];
    }
  }

  /** `determine_team_scores`: one pass over the results fills a dictionary
      of points, whose items are then sorted by points, highest first. */
  method DetermineTeamScores(results: seq<ScoredResult>) returns (ranking: seq<TeamScore>)
    ensures ranking == SortDesc(Items(results), ScoreKey)
  {
    var scores: map<Id, nat> := map[];
    var order: seq<Id> := [];
    for i := 0 to |results|
      invariant Tally(scores, order, results[..i])
    {
      var scores', order' := Credit(scores, order, results[i]);
      TallyStep(results, i, scores, scores', order, order');
      scores, order := scores', order';
    }
    assert results[..|results|] == results;
    var items := seq(|order|, k requires 0 <= k < |order| => TeamScore(order[k], scores[order[k]]));
    assert items == Items(results);
    ranking := SortDesc(items, ScoreKey);
  }

  /** The ranking lists every team that played exactly once with its points,
      highest first, and teams level on points keep the order in which they
      first appeared. */
  lemma RankingCorrect(results: seq<ScoredResult>, k: Key)
    ensures SortedDesc(SortDesc(Items(results), ScoreKey), ScoreKey)
    ensures multiset(SortDesc(Items(results), ScoreKey)) == multiset(Items(results))
    ensures forall e :: e in SortDesc(Items(results), ScoreKey) <==>
              e.points == Points(results, e.team) && Played(results, e.team)
    ensures forall i, j :: 0 <= i < j < |SortDesc(Items(results), ScoreKey)| ==>
              SortDesc(Items(results), ScoreKey)[i].team != SortDesc(Items(results), ScoreKey)[j].team
    ensures WithKey(SortDesc(Items(results), ScoreKey), ScoreKey, k) == WithKey(Items(results), ScoreKey, k)
  {
    var items := Items(results);
    var sorted := SortDesc(items, ScoreKey);
    SortDescCorrect(items, ScoreKey);
    SortDescStable(items, ScoreKey, k);
    ItemsMembers(results);
    forall e
      ensures e in sorted <==> e in items
    {
      assert e in sorted <==> e in multiset(sorted);
      assert e in items <==> e in multiset(items);
    }
    RankingTeamsDistinct(results);
  }

  /** The rows of the dictionary are the teams that played, with their
      points. */
  lemma ItemsMembers(results: seq<ScoredResult>)
    ensures forall e :: e in Items(results) <==> e.points == Points(results, e.team) && Played(results, e.team)
  {
    var items := Items(results);
    AppearancePlayed(results);
    forall e
      ensures e in items <==> e.points == Points(results, e.team) && e.team in Appearance(results)
    {
      if e.team in Appearance(results) && e.points == Points(results, e.team) {
        var i :| 0 <= i < |Appearance(results)| && Appearance(results)[i] == e.team;
        assert items[i] == e;
      }
    }
  }

  /** No team has two rows in the ranking. */
  lemma RankingTeamsDistinct(results: seq<ScoredResult>)
    ensures forall i, j :: 0 <= i < j < |SortDesc(Items(results), ScoreKey)| ==>
              SortDesc(Items(results), ScoreKey)[i].team != SortDesc(Items(results), ScoreKey)[j].team
  {
    var items := Items(results);
    var sorted := SortDesc(items, ScoreKey);
    SortDescCorrect(items, ScoreKey);
    AppearanceDistinct(results);
    forall i, j | 0 <= i < j < |sorted|
      ensures sorted[i].team != sorted[j].team
    {
      DistinctTeamRows(items, sorted, i, j, results);
    }
  }

  /** Two rows of a permutation of `Items` are about different teams. */
  lemma DistinctTeamRows(items: seq<TeamScore>, sorted: seq<TeamScore>, i: nat, j: nat, results: seq<ScoredResult>)
    requires items == Items(results) && multiset(sorted) == multiset(items)
    requires forall a, b :: 0 <= a < b < |Appearance(results)| ==> Appearance(results)[a] != Appearance(results)[b]
    requires i < j < |sorted|
    ensures sorted[i].team != sorted[j].team
  {
    if sorted[i].team == sorted[j].team {
      assert sorted[i] in multiset(items) && sorted[j] in multiset(items);
      var a :| 0 <= a < |items| && items[a] == sorted[i];
      var b :| 0 <= b < |items| && items[b] == sorted[j];
      assert a == b;
      assert sorted[i] == sorted[j];
      MultisetTwice(sorted, i, j);
      assert multiset(items)[items[a]] >= 2;
      OnceInItems(items, a, results);
    }
  }

  /** A value at two places of a sequence occurs at least twice in it. */
  lemma MultisetTwice<T>(s: seq<T>, i: nat, j: nat)
    requires i < j < |s| && s[i] == s[j]
    ensures multiset(s)[s[i]] >= 2
  {
    var x := s[i];
    assert s == s[..i] + [x] + s[i + 1..j] + [x] + s[j + 1..];
    calc >= {
      multiset(s)[x];
      (multiset(s[..i]) + multiset([x]) + multiset(s[i + 1..j]) + multiset([x]) + multiset(s[j + 1..]))[x];
      multiset([x])[x] + multiset([x])[x];
    }
  }

  /** Every row of `Items` occurs once, because its team does. */
  lemma OnceInItems(items: seq<TeamScore>, a: nat, results: seq<ScoredResult>)
    requires items == Items(results) && a < |items|
    requires forall p, q :: 0 <= p < q < |Appearance(results)| ==> Appearance(results)[p] != Appearance(results)[q]
    ensures multiset(items)[items[a]] == 1
  {
    var x := items[a];
    assert items == items[..a] + [x] + items[a + 1..];
    forall p | 0 <= p < |items| && p != a
      ensures items[p] != x
    {
      assert items[p].team == Appearance(results)[p];
    }
    assert x !in items[..a];
    assert x !in items[a + 1..];
    calc {
      multiset(items)[x];
      (multiset(items[..a]) + multiset([x]) + multiset(items[a + 1..]))[x];
      multiset(items[..a])[x] + 1 + multiset(items[a + 1..])[x];
    }
  }

  // ------------------------------------------------------------------ winners

  /** The two scores of a result. */
  datatype Score = Score(score1: int, score2: int)

  /** A knockout fixture together with its result, if one was entered. */
  datatype Game = Game(fixture: SeasonFixture, score: Option<Score>)

  datatype KnockoutError = UndecidedFixture

  /** `determine_winners` as written: each fixture needs a result that is
      not a draw, and the side with more goals advances. A bye fixture,
      `team_2 = None`, has nothing to play and so no result, and stops the
      whole list. */
  function WinnersAsWritten(games: seq<Game>): (r: Result<seq<Option<Id>>, KnockoutError>)
    ensures r.Ok? ==> |r.value| == |games|
  {
    if games == [] then Ok([])
    else
      var g := games[|games| - 1];
      match WinnersAsWritten(games[..|games| - 1])
      case Err(e) => Err(e)
      case Ok(w) =>
        if g.score.Some? && g.score.value.score1 > g.score.value.score2 then Ok(w + [Some(g.fixture.team1)])
        else if g.score.Some? && g.score.value.score1 < g.score.value.score2 then Ok(w + [g.fixture.team2])
        else Err(UndecidedFixture)
  }

  /** A fixture whose result decides a winner. */
  predicate Decided(g: Game)
  {
    g.score.Some? && g.score.value.score1 != g.score.value.score2
  }

  /** As written, the winners are found iff every fixture, byes included,
      has a result that is not a draw, and then each is the side that scored
      more. */
  lemma {:induction false} WinnersAsWrittenIff(games: seq<Game>)
    ensures WinnersAsWritten(games).Ok? <==> forall i :: 0 <= i < |games| ==> Decided(games[i])
    ensures WinnersAsWritten(games).Ok? ==> forall i :: 0 <= i < |games| ==>
      WinnersAsWritten(games).value[i] == if games[i].score.value.score1 > games[i].score.value.score2
                                          then Some(games[i].fixture.team1) else games[i].fixture.team2
  {
    if games != [] {
      var init := games[..|games| - 1];
      WinnersAsWrittenIff(init);
      if !Decided(games[|games| - 1]) {
        assert !(forall i :: 0 <= i < |games| ==> Decided(games[i]));
      }
      if !(forall i :: 0 <= i < |init| ==> Decided(init[i])) {
        var i :| 0 <= i < |init| && !Decided(init[i]);
        assert games[i] == init[i];
      }
    }
  }

  /** The loop of `determine_winners` as written. */
  method DetermineWinnersAsWritten(games: seq<Game>) returns (r: Result<seq<Option<Id>>, KnockoutError>)
    ensures r == WinnersAsWritten(games)
  {
    var winners: seq<Option<Id>> := [];
    for i := 0 to |games|
      invariant WinnersAsWritten(games[..i]) == Ok(winners)
    {
      var g := games[i];
      assert games[..i + 1][..i] == games[..i];
      if g.score.Some? && g.score.value.score1 > g.score.value.score2 {
        winners := winners + [Some(g.fixture.team1)];
      } else if g.score.Some? && g.score.value.score1 < g.score.value.score2 {
        winners := winners + [g.fixture.team2];
      } else {
        assert WinnersAsWritten(games[..i + 1]) == Err(UndecidedFixture);
        WinnersErrExtends(games, i + 1);
        return Err(UndecidedFixture);
      }
    }
    assert games[..|games|] == games;
    return Ok(winners);
  }

  /** Once a prefix has an undecided fixture, so has the whole list. */
  lemma {:induction false} WinnersErrExtends(games: seq<Game>, i: nat)
    requires i <= |games| && WinnersAsWritten(games[..i]) == Err(UndecidedFixture)
    ensures WinnersAsWritten(games) == Err(UndecidedFixture)
    decreases |games| - i
  {
    if i < |games| {
      assert games[..i + 1][..i] == games[..i];
      WinnersErrExtends(games, i + 1);
    } else {
      assert games[..i] == games;
    }
  }

  /** The knockout draw of three seeds leaves the top seed with a bye
      fixture, and as written that fixture stops the next round from being
      drawn, whatever the result of the real fixture. */
  lemma ByeStopsNextRoundAsWritten(s: Score)
    ensures WinnersAsWritten([Game(SeasonFixture(2, Some(3), 0, 0), Some(s)), Game(SeasonFixture(1, None, 0, 0), None)]).Err?
  {
    var games := [Game(SeasonFixture(2, Some(3), 0, 0), Some(s)), Game(SeasonFixture(1, None, 0, 0), None)];
    WinnersAsWrittenIff(games);
    assert !Decided(games[1]);
  }

  /** The evident intent: a bye fixture sends its team through; every other
      fixture needs a result that is not a draw. */
  function Winners(games: seq<Game>): (r: Result<seq<Id>, KnockoutError>)
    ensures r.Ok? ==> |r.value| == |games|
  {
    if games == [] then Ok([])
    else
      var g := games[|games| - 1];
      match Winners(games[..|games| - 1])
      case Err(e) => Err(e)
      case Ok(w) =>
        if g.fixture.team2.None? then Ok(w + [g.fixture.team1])
        else if g.score.Some? && g.score.value.score1 > g.score.value.score2 then Ok(w + [g.fixture.team1])
        else if g.score.Some? && g.score.value.score1 < g.score.value.score2 then Ok(w + [g.fixture.team2.value])
        else Err(UndecidedFixture)
  }

  /** A fixture that sends a team through: a bye or a decided one. */
  predicate Settled(g: Game)
  {
    g.fixture.team2.None? || Decided(g)
  }

  /** With byes counted as settled, the winners are found iff every fixture
      is settled; each winner is a side of its fixture, the team with the
      bye or the side that scored more. */
  lemma {:induction false} WinnersIff(games: seq<Game>)
    ensures Winners(games).Ok? <==> forall i :: 0 <= i < |games| ==> Settled(games[i])
    ensures Winners(games).Ok? ==> forall i :: 0 <= i < |games| ==>
      Winners(games).value[i] == if games[i].fixture.team2.None? || games[i].score.value.score1 > games[i].score.value.score2
                                 then games[i].fixture.team1 else games[i].fixture.team2.value
  {
    if games != [] {
      var init := games[..|games| - 1];
      WinnersIff(init);
      if !Settled(games[|games| - 1]) {
        assert !(forall i :: 0 <= i < |games| ==> Settled(games[i]));
      }
      if !(forall i :: 0 <= i < |init| ==> Settled(init[i])) {
        var i :| 0 <= i < |init| && !Settled(init[i]);
        assert games[i] == init[i];
      }
    }
  }

  /** Where the written version fails, the intended one lets the top seed
      through on its bye. */
  lemma ByeAdvances(s: Score)
    requires s.score1 != s.score2
    ensures Winners([Game(SeasonFixture(2, Some(3), 0, 0), Some(s)), Game(SeasonFixture(1, None, 0, 0), None)]).Ok?
    ensures Winners([Game(SeasonFixture(2, Some(3), 0, 0), Some(s)), Game(SeasonFixture(1, None, 0, 0), None)]).value
         == [if s.score1 > s.score2 then 2 else 3, 1]
  {
    var games := [Game(SeasonFixture(2, Some(3), 0, 0), Some(s)), Game(SeasonFixture(1, None, 0, 0), None)];
    var first := [games[0]];
    assert first[..0] == [];
    assert Winners(first).Ok? && Winners(first).value == [if s.score1 > s.score2 then 2 else 3];
    assert games[..1] == first;
  }

  /** Away from byes the two versions agree. */
  lemma {:induction false} WinnersAgreeWithoutByes(games: seq<Game>)
    requires forall i :: 0 <= i < |games| ==> games[i].fixture.team2.Some?
    ensures WinnersAsWritten(games).Ok? <==> Winners(games).Ok?
    ensures Winners(games).Ok? ==> forall i :: 0 <= i < |games| ==> WinnersAsWritten(games).value[i] == Some(Winners(games).value[i])
  {
    WinnersAsWrittenIff(games);
    WinnersIff(games);
  }

  /** The loop of `determine_winners`, with byes sending their team through. */
  method DetermineWinners(games: seq<Game>) returns (r: Result<seq<Id>, KnockoutError>)
    ensures r == Winners(games)
  {
    var winners: seq<Id> := [];
    for i := 0 to |games|
      invariant Winners(games[..i]) == Ok(winners)
    {
      var g := games[i];
      assert games[..i + 1][..i] == games[..i];
      if g.fixture.team2.None? {
        winners := winners + [g.fixture.team1];
      } else if g.score.Some? && g.score.value.score1 > g.score.value.score2 {
        winners := winners + [g.fixture.team1];
      } else if g.score.Some? && g.score.value.score1 < g.score.value.score2 {
        winners := winners + [g.fixture.team2.value];
      } else {
        assert Winners(games[..i + 1]) == Err(UndecidedFixture);
        WinnersPrefixErr(games, i + 1);
        return Err(UndecidedFixture);
      }
    }
    assert games[..|games|] == games;
    return Ok(winners);
  }

  /** Once a prefix has an unsettled fixture, so has the whole list. */
  lemma {:induction false} WinnersPrefixErr(games: seq<Game>, i: nat)
    requires i <= |games| && Winners(games[..i]) == Err(UndecidedFixture)
    ensures Winners(games) == Err(UndecidedFixture)
    decreases |games| - i
  {
    if i < |games| {
      assert games[..i + 1][..i] == games[..i];
      WinnersPrefixErr(games, i + 1);
    } else {
      assert games[..i] == games;
    }
  }

  // ------------------------------------------------------------------ seeding

  /** The seeds that are paired: all of them, or all but the top seed when
      their number is odd. */
  function Paired(seeds: seq<Id>): seq<Id>
  {
    if |seeds| % 2 != 0 then seeds[1..] else seeds
  }

  /** The knockout draw of `generate_knockout_fixtures`: the `k`-th paired
      seed at home to the `k`-th from last, then, for an odd number of seeds,
      the top seed's bye fixture. */
  function Draw(seeds: seq<Id>, seasonId: Id, now: Time): (r: seq<SeasonFixture>)
  {
    var rest := Paired(seeds);
    seq(|rest| / 2, k requires 0 <= k < |rest| / 2 => SeasonFixture(rest[k], Some(rest[|rest| - 1 - k]), seasonId, now))
    + (if |seeds| % 2 != 0 then [SeasonFixture(seeds[0], None, seasonId, now)] else [])
  }

  /** `generate_knockout_fixtures`: a KNOCKOUT round numbered `roundNumber`
      and its fixtures, the top seed's bye appended last. */
  method GenerateKnockoutFixtures(seeds: seq<Id>, seasonId: Id, roundNumber: int, now: Time)
    returns (round: SeasonRound, fixtures: seq<SeasonFixture>)
    ensures round == SeasonRound(seasonId, roundNumber, Some(Knockout))
    ensures fixtures == Draw(seeds, seasonId, now)
  {
    var teams := seeds;
    var hasBye := false;
    var byeTeam: Id := 0;
    if |teams| % 2 != 0 {
      byeTeam := teams[0];
      hasBye := true;
      teams := teams[1..];
    }
    round := SeasonRound(seasonId, roundNumber, Some(Knockout));
    fixtures := [];
    for k := 0 to |teams| / 2
      invariant fixtures == seq(k, q requires 0 <= q < k => SeasonFixture(teams[q], Some(teams[|teams| - 1 - q]), seasonId, now))
    {
      fixtures := fixtures + [SeasonFixture(teams[k], Some(teams[|teams| - 1 - k]), seasonId, now)];
    }
    if hasBye {
      fixtures := fixtures + [SeasonFixture(byeTeam, None, seasonId, now)];
    }
  }

  /** The draw in terms of the seeds: fixture `q` sets seed `q + m mod 2`
      at home to seed `m - 1 - q`, and the bye fixture comes last. */
  lemma DrawShape(seeds: seq<Id>, seasonId: Id, now: Time)
    ensures |Draw(seeds, seasonId, now)| == |seeds| / 2 + |seeds| % 2
    ensures forall q :: 0 <= q < |seeds| / 2 ==>
      Draw(seeds, seasonId, now)[q] == SeasonFixture(seeds[q + |seeds| % 2], Some(seeds[|seeds| - 1 - q]), seasonId, now)
    ensures |seeds| % 2 != 0 ==> Draw(seeds, seasonId, now)[|seeds| / 2] == SeasonFixture(seeds[0], None, seasonId, now)
  {
  }

  /** The seed that takes a side of fixture `j` of a draw of `m` seeds:
      the home side or the away side of a paired fixture, or the top seed
      in the bye fixture. */
  function Place(m: nat, j: nat, home: bool): nat
  {
    if j >= m / 2 then 0 else if home then j + m % 2 else m - 1 - j
  }

  /** Different sides of different fixtures come from different seeds. */
  lemma PlaceInjective(m: nat, j1: nat, j2: nat, h1: bool, h2: bool)
    requires j1 < m / 2 + m % 2 && j2 < m / 2 + m % 2
    requires j1 >= m / 2 ==> h1
    requires j2 >= m / 2 ==> h2
    requires Place(m, j1, h1) == Place(m, j2, h2)
    ensures j1 == j2
  {
  }

  /** A team is drawn in fixture `j` of a draw. */
  predicate DrawnIn(d: seq<SeasonFixture>, j: int, t: Id)
  {
    0 <= j < |d| && Some(t) in Sides(d[j])
  }

  /** A side of fixture `j` is the seed at `Place`. */
  lemma SideSeed(seeds: seq<Id>, seasonId: Id, now: Time, j: nat, t: Id)
    requires DrawnIn(Draw(seeds, seasonId, now), j, t)
    ensures j >= |seeds| / 2 ==> Draw(seeds, seasonId, now)[j].team1 == t
    ensures Place(|seeds|, j, Draw(seeds, seasonId, now)[j].team1 == t) < |seeds|
    ensures seeds[Place(|seeds|, j, Draw(seeds, seasonId, now)[j].team1 == t)] == t
  {
    DrawShape(seeds, seasonId, now);
  }

  /** The draw has `⌊m/2⌋ + m mod 2` fixtures for `m` seeds. The teams drawn
      are the seeds, and with distinct seeds each is drawn in exactly one
      fixture and no fixture sets a team against itself. */
  lemma DrawCoversSeeds(seeds: seq<Id>, seasonId: Id, now: Time)
    requires forall i, j :: 0 <= i < j < |seeds| ==> seeds[i] != seeds[j]
    ensures |Draw(seeds, seasonId, now)| == |seeds| / 2 + |seeds| % 2
    ensures forall t :: (exists j :: DrawnIn(Draw(seeds, seasonId, now), j, t)) <==> t in seeds
    ensures forall j1, j2, t :: DrawnIn(Draw(seeds, seasonId, now), j1, t) && DrawnIn(Draw(seeds, seasonId, now), j2, t) ==> j1 == j2
    ensures forall j :: 0 <= j < |Draw(seeds, seasonId, now)| ==> Some(Draw(seeds, seasonId, now)[j].team1) != Draw(seeds, seasonId, now)[j].team2
  {
    DrawShape(seeds, seasonId, now);
    DrawHasEverySeed(seeds, seasonId, now);
    DrawOnlySeeds(seeds, seasonId, now);
    DrawOnce(seeds, seasonId, now);
    DrawNoSelf(seeds, seasonId, now);
  }

  /** Every seed is drawn. */
  lemma DrawHasEverySeed(seeds: seq<Id>, seasonId: Id, now: Time)
    ensures forall t :: t in seeds ==> exists j :: DrawnIn(Draw(seeds, seasonId, now), j, t)
  {
    var d := Draw(seeds, seasonId, now);
    var m := |seeds|;
    DrawShape(seeds, seasonId, now);
    forall t | t in seeds
      ensures exists j :: DrawnIn(d, j, t)
    {
      var i :| 0 <= i < m && seeds[i] == t;
      if i < m % 2 {
        assert DrawnIn(d, m / 2, t);
      } else if i - m % 2 < m / 2 {
        assert DrawnIn(d, i - m % 2, t);
      } else {
        assert DrawnIn(d, m - 1 - i, t);
      }
    }
  }

  /** Only seeds are drawn. */
  lemma DrawOnlySeeds(seeds: seq<Id>, seasonId: Id, now: Time)
    ensures forall j, t :: DrawnIn(Draw(seeds, seasonId, now), j, t) ==> t in seeds
  {
    forall t, j | DrawnIn(Draw(seeds, seasonId, now), j, t)
      ensures t in seeds
    {
      SideSeed(seeds, seasonId, now, j, t);
    }
  }

  /** Seeds that do not repeat are drawn once each. */
  lemma DrawOnce(seeds: seq<Id>, seasonId: Id, now: Time)
    requires forall i, j :: 0 <= i < j < |seeds| ==> seeds[i] != seeds[j]
    ensures forall j1, j2, t :: DrawnIn(Draw(seeds, seasonId, now), j1, t) && DrawnIn(Draw(seeds, seasonId, now), j2, t) ==> j1 == j2
  {
    var d := Draw(seeds, seasonId, now);
    var m := |seeds|;
    forall j1, j2, t | DrawnIn(d, j1, t) && DrawnIn(d, j2, t)
      ensures j1 == j2
    {
      SideSeed(seeds, seasonId, now, j1, t);
      SideSeed(seeds, seasonId, now, j2, t);
      var p1 := Place(m, j1, d[j1].team1 == t);
      var p2 := Place(m, j2, d[j2].team1 == t);
      assert p1 == p2;
      PlaceInjective(m, j1, j2, d[j1].team1 == t, d[j2].team1 == t);
    }
  }

  /** Seeds that do not repeat never meet themselves. */
  lemma DrawNoSelf(seeds: seq<Id>, seasonId: Id, now: Time)
    requires forall i, j :: 0 <= i < j < |seeds| ==> seeds[i] != seeds[j]
    ensures forall j :: 0 <= j < |Draw(seeds, seasonId, now)| ==> Some(Draw(seeds, seasonId, now)[j].team1) != Draw(seeds, seasonId, now)[j].team2
  {
    var d := Draw(seeds, seasonId, now);
    var m := |seeds|;
    DrawShape(seeds, seasonId, now);
    forall j | 0 <= j < |d|
      ensures Some(d[j].team1) != d[j].team2
    {
      if j < m / 2 {
        assert seeds[j + m % 2] != seeds[m - 1 - j];
      }
    }
  }

  /** `schedule_knockout_round` on the fixtures of the previous round: the
      winners of that round, with byes going through, are drawn into round
      `roundNumber + 1`; a single winner means the tournament is over. */
  method ScheduleKnockoutRound(previous: seq<Game>, seasonId: Id, roundNumber: int, now: Time)
    returns (r: Result<Option<(SeasonRound, seq<SeasonFixture>)>, KnockoutError>)
    ensures Winners(previous).Err? ==> r == Err(UndecidedFixture)
    ensures Winners(previous).Ok? && |Winners(previous).value| == 1 ==> r == Ok(None)
    ensures Winners(previous).Ok? && |Winners(previous).value| != 1 ==>
      r == Ok(Some((SeasonRound(seasonId, roundNumber + 1, Some(Knockout)), Draw(Winners(previous).value, seasonId, now))))
  {
    var winners := DetermineWinners(previous);
    if winners.Err? {
      return Err(UndecidedFixture);
    }
    if |winners.value| == 1 {
      return Ok(None);
    }
    var round, fixtures := GenerateKnockoutFixtures(winners.value, seasonId, roundNumber + 1, now);
    return Ok(Some((round, fixtures)));
  }

  /** Each knockout round halves the field, rounding up: a settled round of
      `m` fixtures is followed by one of `⌈m/2⌉` fixtures. */
  lemma NextRoundSize(previous: seq<Game>, seasonId: Id, now: Time)
    requires forall i :: 0 <= i < |previous| ==> Settled(previous[i])
    ensures Winners(previous).Ok?
    ensures |Draw(Winners(previous).value, seasonId, now)| == (|previous| + 1) / 2
  {
    WinnersIff(previous);
  }

  /** The teams of a ranking, best first. */
  function Seeds(ranking: seq<TeamScore>): (r: seq<Id>)
    ensures |r| == |ranking| && forall i :: 0 <= i < |r| ==> r[i] == ranking[i].team
  {
    seq(|ranking|, i requires 0 <= i < |ranking| => ranking[i].team)
  }

  /** The first knockout round drawn from the group-stage ranking. */
  function FirstKnockoutDraw(results: seq<ScoredResult>, seasonId: Id, now: Time): seq<SeasonFixture>
  {
    Draw(Seeds(SortDesc(Items(results), ScoreKey)), seasonId, now)
  }

  /** `initiate_knockout_tournament`: the group-stage ranking seeds the first
      knockout round. */
  method InitiateKnockout(results: seq<ScoredResult>, seasonId: Id, now: Time)
    returns (round: SeasonRound, fixtures: seq<SeasonFixture>)
    ensures round == SeasonRound(seasonId, 1, Some(Knockout))
    ensures fixtures == FirstKnockoutDraw(results, seasonId, now)
  {
    var ranking := DetermineTeamScores(results);
    round, fixtures := GenerateKnockoutFixtures(Seeds(ranking), seasonId, 1, now);
  }

  /** The seeds of the ranking are the teams that played, each once. */
  lemma SeedsAreTeams(results: seq<ScoredResult>)
    ensures forall t :: t in Seeds(SortDesc(Items(results), ScoreKey)) <==> Played(results, t)
    ensures forall i, j :: 0 <= i < j < |Seeds(SortDesc(Items(results), ScoreKey))| ==>
              Seeds(SortDesc(Items(results), ScoreKey))[i] != Seeds(SortDesc(Items(results), ScoreKey))[j]
  {
    var sorted := SortDesc(Items(results), ScoreKey);
    var seeds := Seeds(sorted);
    RankingCorrect(results, Key(0, 0, 0));
    forall t
      ensures t in seeds <==> Played(results, t)
    {
      if t in seeds {
        var k :| 0 <= k < |seeds| && seeds[k] == t;
        assert sorted[k] in sorted;
      }
      if Played(results, t) {
        var e := TeamScore(t, Points(results, t));
        assert e in sorted;
        var k :| 0 <= k < |sorted| && sorted[k] == e;
        assert seeds[k] == t;
      }
    }
  }

  /** The first knockout round draws exactly the teams of the group stage,
      each in exactly one fixture. */
  lemma FirstKnockoutRoundCoversTeams(results: seq<ScoredResult>, seasonId: Id, now: Time)
    ensures forall t :: (exists j :: DrawnIn(FirstKnockoutDraw(results, seasonId, now), j, t)) <==> Played(results, t)
    ensures forall j1, j2, t ::
              (DrawnIn(FirstKnockoutDraw(results, seasonId, now), j1, t) && DrawnIn(FirstKnockoutDraw(results, seasonId, now), j2, t))
              ==> j1 == j2
  {
    var seeds := Seeds(SortDesc(Items(results), ScoreKey));
    SeedsAreTeams(results);
    DrawCoversSeeds(seeds, seasonId, now);
    assert FirstKnockoutDraw(results, seasonId, now) == Draw(seeds, seasonId, now);
  }

  // ------------------------------------------------------------ result store

  /** A result as `ResultsService` stores it, one per fixture. */
  datatype LegacyResult = LegacyResult(fixtureId: Id, score1: int, score2: int, submittedBy: Id, confirmed: bool)

  /** `ResultsService`: the results table, keyed by fixture id (the primary
      key of the table). */
  class ResultsStore {
    var results: map<Id, LegacyResult>

    /** Every result is stored under its own fixture. */
    ghost predicate Valid()
      reads this
    {
      forall f :: f in results ==> results[f].fixtureId == f
    }

    constructor ()
      ensures results == map[] && Valid()
    {
      results := map[];
    }

    /** `get_result_for_fixture`. */
    function ResultFor(fixtureId: Id): (r: Option<LegacyResult>)
      reads this
      requires Valid()
      ensures r.Some? <==> fixtureId in results
      ensures r.Some? ==> r.value.fixtureId == fixtureId
    {
      if fixtureId in results then Some(results[fixtureId]) else None
    }

    /** `add_result`: a fixture that already has a result gets nothing and
        keeps its result; otherwise the new result is stored unconfirmed
        unless `confirmed` says otherwise. */
    method AddResult(fixtureId: Id, score1: int, score2: int, submittedBy: Id, confirmed: bool) returns (r: Option<LegacyResult>)
      requires Valid()
      modifies this
      ensures Valid()
      ensures fixtureId in old(results) ==> r == None && results == old(results)
      ensures fixtureId !in old(results) ==>
        r == Some(LegacyResult(fixtureId, score1, score2, submittedBy, confirmed)) && results == old(results)[fixtureId := r.value]
    {
      if fixtureId in results {
        return None;
      }
      var res := LegacyResult(fixtureId, score1, score2, submittedBy, confirmed);
      results := results[fixtureId := res];
      return Some(res);
    }

    /** `confirm_result`: marks the fixture's result confirmed, or returns
        nothing when there is none; scores and submitter are untouched. */
    method ConfirmResult(fixtureId: Id) returns (r: Option<LegacyResult>)
      requires Valid()
      modifies this
      ensures Valid()
      ensures fixtureId !in old(results) ==> r == None && results == old(results)
      ensures fixtureId in old(results) ==>
        r == Some(old(results)[fixtureId].(confirmed := true)) && results == old(results)[fixtureId := r.value]
    {
      if fixtureId !in results {
        return None;
      }
      var res := results[fixtureId].(confirmed := true);
      results := results[fixtureId := res];
      return Some(res);
    }
  }

  // --------------------------------------------------------- qualifying teams

  /** A roster row of the legacy `Roster` table. */
  datatype LegacyRosterRow = LegacyRosterRow(teamId: Id, playerId: Id, seasonId: Id, pending: bool)

  /** The distinct confirmed players of a team in a season. */
  function ConfirmedPlayers(rows: seq<LegacyRosterRow>, seasonId: Id, teamId: Id): set<Id>
  {
    set r | r in rows && r.seasonId == seasonId && r.teamId == teamId && !r.pending :: r.playerId
  }

  /** `get_teams_with_min_players` of the fixtures utilities: the teams with
      strictly more than `minPlayers` distinct confirmed players. */
  function TeamsWithMinPlayersUtils(rows: seq<LegacyRosterRow>, seasonId: Id, minPlayers: nat): (r: set<Id>)
    ensures forall t :: t in r ==> |ConfirmedPlayers(rows, seasonId, t)| > minPlayers
  {
    set r | r in rows && r.seasonId == seasonId && !r.pending && |ConfirmedPlayers(rows, seasonId, r.teamId)| > minPlayers :: r.teamId
  }

  /** Every team with more than `minPlayers` confirmed players qualifies,
      and raising the bar never lets a team in. */
  lemma TeamsWithMinPlayersUtilsExact(rows: seq<LegacyRosterRow>, seasonId: Id, minPlayers: nat, t: Id)
    ensures t in TeamsWithMinPlayersUtils(rows, seasonId, minPlayers) <==> |ConfirmedPlayers(rows, seasonId, t)| > minPlayers
    ensures t in TeamsWithMinPlayersUtils(rows, seasonId, minPlayers + 1) ==> t in TeamsWithMinPlayersUtils(rows, seasonId, minPlayers)
  {
    var ps := ConfirmedPlayers(rows, seasonId, t);
    if |ps| > minPlayers {
      assert |ps| > 0;
      var p :| p in ps;
      var r :| r in rows && r.seasonId == seasonId && r.teamId == t && !r.pending && r.playerId == p;
    }
  }
}
