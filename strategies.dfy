/** Tournament-structure generation: the round-robin strategy for regular
    tournaments and the single-elimination strategy for knockout ones.
    Rounds are seven days long and back to back from the tournament's
    scheduled start. Teams are given by id, in the order they were
    registered. */
module GenerationStrategies {
  import opened Common
  import opened CompetitionData

  datatype GenerationError = TooFewTeams | TooManyTeams | NoStrategy

  datatype Strategy = RoundRobin | SingleElimination

  const DaysBetweenRounds: int := 7

  /** `_validate_team_count`. */
  function ValidateTeamCount(count: nat, minTeams: int, maxTeams: int): (r: Outcome<GenerationError>)
    ensures r.Fail? <==> count < minTeams || count > maxTeams
    ensures count < minTeams ==> r == Fail(TooFewTeams)
  {
    if count < minTeams then Fail(TooFewTeams)
    else if count > maxTeams then Fail(TooManyTeams)
    else Pass
  }

  /** `get_generation_strategy`. */
  function GetGenerationStrategy(ttype: TournamentType): (r: Result<Strategy, GenerationError>)
    ensures r == Ok(RoundRobin) <==> ttype == Regular
    ensures r == Ok(SingleElimination) <==> ttype == Knockout
    ensures r.Err? <==> ttype == Pug
  {
    match ttype
    case Regular => Ok(RoundRobin)
    case Knockout => Ok(SingleElimination)
    case Pug => Err(NoStrategy)
  }

  /** The `index`-th generated round (0-based) of tournament `tid`. */
  function PlannedRound(tid: Id, t: Tournament, rtype: RoundType, index: nat): Round
  {
    Round(tid, index + 1, rtype, None,
          t.scheduledStart + index * DaysBetweenRounds * Day,
          t.scheduledStart + (index + 1) * DaysBetweenRounds * Day,
          RoundStatus.Pending, None)
  }

  /** Builds `count` consecutive rounds, as the `for round_num in range(...)`
      loops of both strategies do. */
  method BuildRounds(tid: Id, t: Tournament, rtype: RoundType, count: int) returns (rounds: seq<Round>)
    ensures |rounds| == if count < 0 then 0 else count
    ensures forall i :: 0 <= i < |rounds| ==> rounds[i] == PlannedRound(tid, t, rtype, i)
  {
    rounds := [];
    var roundNum := 0;
    while roundNum < count
      invariant 0 <= roundNum && (count >= 0 ==> roundNum <= count) && (count < 0 ==> roundNum == 0)
      invariant |rounds| == roundNum
      invariant forall i :: 0 <= i < roundNum ==> rounds[i] == PlannedRound(tid, t, rtype, i)
    {
      rounds := rounds + [PlannedRound(tid, t, rtype, roundNum)];
      roundNum := roundNum + 1;
    }
  }

  /** Planned rounds are numbered 1..k, "pending", seven days long, and each
      ends exactly when the next begins. */
  lemma PlannedRoundsChain(tid: Id, t: Tournament, rtype: RoundType, i: nat)
    ensures PlannedRound(tid, t, rtype, i).roundNumber == i + 1
    ensures PlannedRound(tid, t, rtype, i).status == RoundStatus.Pending
    ensures PlannedRound(tid, t, rtype, i).endDate - PlannedRound(tid, t, rtype, i).startDate == 7 * Day
    ensures PlannedRound(tid, t, rtype, i).endDate == PlannedRound(tid, t, rtype, i + 1).startDate
  {
  }

  /** `RoundRobinStrategy.generate_rounds`: 2·(n − 1) group-stage rounds. */
  method RoundRobinRounds(tid: Id, t: Tournament, teams: seq<Id>) returns (r: Result<seq<Round>, GenerationError>)
    ensures r.Err? <==> ValidateTeamCount(|teams|, t.minTeams, t.maxTeams).Fail?
    ensures r.Ok? ==> |r.value| == if |teams| == 0 then 0 else 2 * (|teams| - 1)
    ensures r.Ok? ==> forall i :: 0 <= i < |r.value| ==> r.value[i] == PlannedRound(tid, t, GroupStage, i)
  {
    var check := ValidateTeamCount(|teams|, t.minTeams, t.maxTeams);
    if check.Fail? {
      return Err(check.error);
    }
    var rounds := BuildRounds(tid, t, GroupStage, (|teams| - 1) * 2);
    return Ok(rounds);
  }

  /** Python's `int.bit_length()`: the number of binary digits of |x|. */
  function BitLength(x: int): (k: nat)
    decreases if x < 0 then 1 - x else x
  {
    if x == 0 then 0 else if x < 0 then BitLength(-x) else 1 + BitLength(x / 2)
  }

  function Pow2(k: nat): (p: nat)
    ensures p >= 1
  {
    if k == 0 then 1 else 2 * Pow2(k - 1)
  }

  /** For x ≥ 0, `x.bit_length()` is the least k with x < 2^k. */
  lemma {:induction false} BitLengthBounds(x: nat)
    ensures x < Pow2(BitLength(x))
    ensures BitLength(x) > 0 ==> Pow2(BitLength(x) - 1) <= x
  {
    if x > 0 {
      BitLengthBounds(x / 2);
    }
  }

  /** `(n − 1).bit_length()` is the number of rounds of a single-elimination
      bracket: the least k with 2^k ≥ n. */
  lemma KnockoutRoundCount(n: nat)
    requires n >= 1
    ensures Pow2(BitLength(n - 1)) >= n
    ensures BitLength(n - 1) > 0 ==> Pow2(BitLength(n - 1) - 1) < n
  {
    BitLengthBounds(n - 1);
  }

  /** `SingleEliminationStrategy.generate_rounds`. */
  method SingleEliminationRounds(tid: Id, t: Tournament, teams: seq<Id>) returns (r: Result<seq<Round>, GenerationError>)
    ensures r.Err? <==> ValidateTeamCount(|teams|, t.minTeams, t.maxTeams).Fail?
    ensures r.Ok? ==> |r.value| == BitLength(|teams| - 1)
    ensures r.Ok? ==> forall i :: 0 <= i < |r.value| ==> r.value[i] == PlannedRound(tid, t, KnockoutStage, i)
  {
    var check := ValidateTeamCount(|teams|, t.minTeams, t.maxTeams);
    if check.Fail? {
      return Err(check.error);
    }
    var rounds := BuildRounds(tid, t, KnockoutStage, BitLength(|teams| - 1));
    return Ok(rounds);
  }

  /** `tournament.format_config.get('match_format', default)`; a value that
      is not a string is read as the default. */
  function MatchFormatOf(config: map<string, ConfigValue>, default: string): string
  {
    if "match_format" in config && config["match_format"].StrValue? then config["match_format"].s else default
  }

  /** A generated fixture between `team1` and `team2` in round `roundId`. */
  function PlannedFixture(tid: Id, t: Tournament, roundId: Id, round: Round, team1: Id, team2: Option<Id>, default: string): Fixture
  {
    Fixture(tid, roundId, team1, team2, MatchFormatOf(t.formatConfig, default), round.startDate,
            None, None, None, FixtureStatus.Scheduled, None, None, None)
  }

  /** The circle-method list with the bye: the teams, then None when the
      count is odd. */
  function WithBye(teams: seq<Id>): (p: seq<Option<Id>>)
    ensures |p| == if |teams| % 2 == 0 then |teams| else |teams| + 1
    ensures forall i :: 0 <= i < |teams| ==> p[i] == Some(teams[i])
    ensures |teams| % 2 != 0 ==> p[|teams|] == None
  {
    seq(|teams|, i requires 0 <= i < |teams| => Some(teams[i])) + (if |teams| % 2 != 0 then [None] else [])
  }

  /** The round-robin pairing of a round: team k of the first half against
      team k of the second half, for every k below half the team count. */
  function RoundRobinPairing(tid: Id, t: Tournament, roundId: Id, round: Round, teams: seq<Id>): seq<Fixture>
  {
    seq(|teams| / 2, k requires 0 <= k < |teams| / 2 =>
      PlannedFixture(tid, t, roundId, round, teams[k], Some(teams[k + (|teams| + 1) / 2]), "bo1"))
  }

  /** `RoundRobinStrategy.generate_fixtures`. The first half of the padded
      list is zipped with the second half and bye pairs are dropped. The
      rotation the source then applies is to a local copy that is never read
      again, so the result does not depend on the round beyond its id and
      start date. */
  method RoundRobinFixtures(tid: Id, t: Tournament, roundId: Id, round: Round, teams: seq<Id>) returns (fixtures: seq<Fixture>)
    ensures fixtures == RoundRobinPairing(tid, t, roundId, round, teams)
    ensures |fixtures| == |teams| / 2
    ensures forall k :: 0 <= k < |fixtures| ==>
      fixtures[k] == PlannedFixture(tid, t, roundId, round, teams[k], Some(teams[k + (|teams| + 1) / 2]), "bo1")
  {
    var playing := WithBye(teams);
    var half := |playing| / 2;
    fixtures := [];
    var i := 0;
    while i < half
      invariant 0 <= i <= half
      invariant |fixtures| == if i < |teams| / 2 then i else |teams| / 2
      invariant forall k :: 0 <= k < |fixtures| ==>
        fixtures[k] == PlannedFixture(tid, t, roundId, round, teams[k], Some(teams[k + (|teams| + 1) / 2]), "bo1")
    {
      var team1, team2 := playing[i], playing[half + i];
      if team1.Some? && team2.Some? {
        fixtures := fixtures + [PlannedFixture(tid, t, roundId, round, team1.value, team2, "bo1")];
      }
      i := i + 1;
    }
  }

  /** With distinct teams, no team is in two round-robin fixtures of a round
      and no fixture pits a team against itself. */
  lemma RoundRobinPairsDisjoint(teams: seq<Id>, j: nat, k: nat)
    requires forall a, b :: 0 <= a < b < |teams| ==> teams[a] != teams[b]
    requires j < |teams| / 2 && k < |teams| / 2 && j != k
    ensures teams[j] != teams[k + (|teams| + 1) / 2]
    ensures teams[j] != teams[j + (|teams| + 1) / 2]
    ensures teams[j] != teams[k] && teams[j + (|teams| + 1) / 2] != teams[k + (|teams| + 1) / 2]
  {
  }

  /** The first pair start the single-elimination loop does not skip: the
      least even index that is not below the bye count. */
  function FirstPlayedPair(byes: int): nat
  {
    if byes <= 0 then 0 else byes + byes % 2
  }

  /** The k-th single-elimination fixture when the first played pair starts
      at index `s`. */
  function KnockoutFixture(tid: Id, t: Tournament, roundId: Id, round: Round, teams: seq<Id>, s: nat, k: nat): Fixture
    requires s + 2 * k < |teams|
  {
    PlannedFixture(tid, t, roundId, round, teams[s + 2 * k],
                   if s + 2 * k + 1 < |teams| then Some(teams[s + 2 * k + 1]) else None, "bo3")
  }

  lemma FirstPlayedPairBounds(i: int, byes: int)
    requires i >= 0 && i % 2 == 0
    ensures FirstPlayedPair(byes) % 2 == 0
    ensures i >= byes ==> i >= FirstPlayedPair(byes)
    ensures i < byes ==> i + 2 <= FirstPlayedPair(byes)
  {
  }

  /** The loop of `generate_fixtures` over pair starts 0, 2, 4, … below
      `n`, skipping those below `numByes`. */
  method KnockoutPairs(tid: Id, t: Tournament, roundId: Id, round: Round, teams: seq<Id>, numByes: int)
    returns (fixtures: seq<Fixture>)
    ensures var s := FirstPlayedPair(numByes);
      && |fixtures| == (if s >= |teams| then 0 else (|teams| - s + 1) / 2)
      && forall k :: 0 <= k < |fixtures| ==>
           s + 2 * k < |teams| && fixtures[k] == KnockoutFixture(tid, t, roundId, round, teams, s, k)
  {
    var n := |teams|;
    ghost var s := FirstPlayedPair(numByes);
    FirstPlayedPairBounds(0, numByes);
    fixtures := [];
    var i := 0;
    while i < n
      invariant 0 <= i <= n + 1 && i % 2 == 0
      invariant i <= s ==> |fixtures| == 0
      invariant i > s ==> 2 * |fixtures| == i - s
      invariant forall k :: 0 <= k < |fixtures| ==>
        s + 2 * k < n && fixtures[k] == KnockoutFixture(tid, t, roundId, round, teams, s, k)
    {
      FirstPlayedPairBounds(i, numByes);
      if i >= numByes {
        var team1 := teams[i];
        var team2 := if i + 1 < n then Some(teams[i + 1]) else None;
        fixtures := fixtures + [PlannedFixture(tid, t, roundId, round, team1, team2, "bo3")];
      }
      i := i + 2;
    }
  }

  /** The number of single-elimination fixtures when the first played pair
      starts at index `s`. */
  function KnockoutPairCount(n: nat, s: nat): nat
  {
    if s >= n then 0 else (n - s + 1) / 2
  }

  /** The single-elimination pairing of a round: the pairs from the first
      played pair on in round 1, and nothing in any later round. */
  function SingleEliminationPairing(tid: Id, t: Tournament, roundId: Id, round: Round, teams: seq<Id>): seq<Fixture>
  {
    if round.roundNumber != 1 then []
    else
      var s := FirstPlayedPair(Pow2(BitLength(|teams| - 1)) - |teams|);
      seq(KnockoutPairCount(|teams|, s), k requires 0 <= k < KnockoutPairCount(|teams|, s) =>
        KnockoutFixture(tid, t, roundId, round, teams, s, k))
  }

  /** `SingleEliminationStrategy.generate_fixtures`. Only round 1 gets
      fixtures: with byes = 2^⌈log₂ n⌉ − n, the pair starts 0, 2, 4, … below
      the bye count are skipped, and a last team without a partner plays
      None. Any later round gets no fixtures at all. */
  method SingleEliminationFixtures(tid: Id, t: Tournament, roundId: Id, round: Round, teams: seq<Id>)
    returns (fixtures: seq<Fixture>)
    ensures fixtures == SingleEliminationPairing(tid, t, roundId, round, teams)
    ensures round.roundNumber != 1 ==> fixtures == []
    ensures round.roundNumber == 1 ==>
      var s := FirstPlayedPair(Pow2(BitLength(|teams| - 1)) - |teams|);
      && |fixtures| == (if s >= |teams| then 0 else (|teams| - s + 1) / 2)
      && forall k :: 0 <= k < |fixtures| ==>
           s + 2 * k < |teams| && fixtures[k] == KnockoutFixture(tid, t, roundId, round, teams, s, k)
  {
    fixtures := [];
    if round.roundNumber == 1 {
      var targetSize := Pow2(BitLength(|teams| - 1));
      fixtures := KnockoutPairs(tid, t, roundId, round, teams, targetSize - |teams|);
    }
  }

  /** A single-elimination fixture lacks a second team only when its first
      team is the last of the list. */
  lemma SingleEliminationByeIsLast(n: nat, s: nat, k: nat)
    requires s + 2 * k < n
    ensures !(s + 2 * k + 1 < n) <==> s + 2 * k == n - 1
  {
  }
}
