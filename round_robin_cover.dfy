/** The circle method of `create_round_robin_fixtures_with_rounds` is a
    complete round robin: over the `n - 1` rounds of the padded list every
    ordered pair of distinct real teams is drawn in exactly one round. */
module RoundRobinCover {
  import opened Common
  import opened LegacyFixtures
  import GenerationStrategies

  /** `v mod m` for `0 <= v < 2m`. */
  function Wrap(v: int, m: int): int
  {
    if v < m then v else v - m
  }

  /** Where entry `p` of the padded list stands after `k < m` rotations,
      `m` being one less than its length: the first entry never moves and
      the others turn right, the last one wrapping round to place 1. */
  function Pos(p: nat, k: nat, m: nat): nat
    requires p <= m && k < m
  {
    if p == 0 then 0 else 1 + Wrap(p - 1 + k, m)
  }

  /** After `k` rotations entry `p` is found at `Pos(p, k, n - 1)`. */
  lemma {:induction false} RotatedAt<T>(ts: seq<T>, k: nat, p: nat)
    requires |ts| >= 2 && k < |ts| - 1 && p < |ts|
    ensures Pos(p, k, |ts| - 1) < |ts| && Rotated(ts, k)[Pos(p, k, |ts| - 1)] == ts[p]
  {
    if p == 0 {
      RotatedKeepsFirst(ts, k);
    } else if k > 0 {
      RotatedAt(ts, k - 1, p);
    }
  }

  /** Team `a` is drawn at home against team `b` among `fixtures`. */
  predicate Plays(fixtures: seq<SeasonFixture>, a: Id, b: Id)
  {
    exists f :: f in fixtures && f.team1 == a && f.team2 == Some(b)
  }

  /** In a round played with a list that repeats no team, two teams at
      places `p` and `q` meet exactly when their places are mirror images,
      `p + q == n - 1`, and then in both orders. */
  lemma PlaysIffMirror(r: seq<Option<Id>>, seasonId: Id, home: Time, away: Time, a: Id, b: Id, p: nat, q: nat)
    requires DistinctTeams(r) && a != b
    requires p < |r| && q < |r| && r[p] == Some(a) && r[q] == Some(b)
    ensures Plays(RoundLegs(r, |r| / 2, seasonId, home, away), a, b) <==> p + q == |r| - 1
  {
    var n := |r|;
    var fixtures := RoundLegs(r, n / 2, seasonId, home, away);
    if p + q == n - 1 {
      var j := if p < q then p else q;
      var f := if j == p then SeasonFixture(a, Some(b), seasonId, home) else SeasonFixture(a, Some(b), seasonId, away);
      assert f in Legs(r, j, seasonId, home, away);
      RoundLegsMembers(r, n / 2, seasonId, home, away, f);
    }
    if Plays(fixtures, a, b) {
      var f :| f in fixtures && f.team1 == a && f.team2 == Some(b);
      var j := SlotOf(r, n / 2, seasonId, home, away, f);
      if r[j] == Some(a) {
        assert p == j && q == n - 1 - j;
      } else {
        assert p == n - 1 - j && q == j;
      }
    }
  }

  /** Two mirror rounds of the same two entries are the same round: the
      places of two distinct entries add up to `m` in at most one round
      when `m` is odd. */
  lemma MirrorUnique(m: nat, p: nat, q: nat, k1: nat, k2: nat)
    requires m % 2 == 1 && p <= m && q <= m && p != q && k1 < m && k2 < m
    requires Pos(p, k1, m) + Pos(q, k1, m) == m && Pos(p, k2, m) + Pos(q, k2, m) == m
    ensures k1 == k2
  {
  }

  /** Every two distinct entries are mirror images in some round. */
  lemma MirrorExists(m: nat, p: nat, q: nat) returns (k: nat)
    requires m % 2 == 1 && p <= m && q <= m && p != q
    ensures k < m && Pos(p, k, m) + Pos(q, k, m) == m
  {
    if p == 0 {
      k := m - q;
    } else if q == 0 {
      k := m - p;
    } else {
      // Both entries move; find `k` with `p + q + 2k` one of `m`, `2m`, `3m`.
      var h := (m - 1) / 2;
      assert m == 2 * h + 1;
      var t := (p + q) / 2;
      if p + q == 2 * t {
        k := m - t;
        assert p + q + 2 * k == 2 * m;
      } else if p + q <= m {
        k := h - t;
        assert p + q + 2 * k == m;
      } else {
        k := 3 * h + 1 - t;
        assert p + q + 2 * k == 3 * m;
      }
    }
  }

  /** Round `k` of the stage is played with the padded list rotated `k`
      times. */
  lemma ScheduleFixturesAt(ts0: seq<Option<Id>>, seasonId: Id, start: Time, rtype: Option<RoundType>, k: nat)
    requires |ts0| >= 2 && k < |ts0| - 1
    ensures Schedule(ts0, seasonId, start, rtype)[k].fixtures
         == RoundLegs(Rotated(ts0, k), |ts0| / 2, seasonId, AddDays(start, DaysBetweenRounds * k),
                      AddDays(AddDays(start, DaysBetweenRounds * k), DaysBetweenRounds * (|ts0| - 1)))
  {
    RoundsAt(ts0, |ts0| - 1, seasonId, start, rtype, k);
  }

  /** In round `k`, entries `p` and `q` of the padded list meet exactly when
      their places after `k` rotations are mirror images. */
  lemma PlaysInRound(ts0: seq<Option<Id>>, seasonId: Id, start: Time, rtype: Option<RoundType>, k: nat, p: nat, q: nat, a: Id, b: Id)
    requires |ts0| >= 2 && k < |ts0| - 1 && DistinctTeams(ts0) && a != b
    requires p < |ts0| && q < |ts0| && ts0[p] == Some(a) && ts0[q] == Some(b)
    ensures Plays(Schedule(ts0, seasonId, start, rtype)[k].fixtures, a, b)
        <==> Pos(p, k, |ts0| - 1) + Pos(q, k, |ts0| - 1) == |ts0| - 1
  {
    var r := Rotated(ts0, k);
    ScheduleFixturesAt(ts0, seasonId, start, rtype, k);
    RotatedAt(ts0, k, p);
    RotatedAt(ts0, k, q);
    RotatedDistinct(ts0, k);
    var home := AddDays(start, DaysBetweenRounds * k);
    PlaysIffMirror(r, seasonId, home, AddDays(home, DaysBetweenRounds * (|ts0| - 1)), a, b,
                   Pos(p, k, |ts0| - 1), Pos(q, k, |ts0| - 1));
  }

  /** Teams listed without repetition stay without repetition once padded. */
  lemma WithByeDistinct(teamIds: seq<Id>)
    requires forall i, j :: 0 <= i < j < |teamIds| ==> teamIds[i] != teamIds[j]
    ensures DistinctTeams(GenerationStrategies.WithBye(teamIds))
  {
    var ts := GenerationStrategies.WithBye(teamIds);
    forall p, q | 0 <= p < |ts| && 0 <= q < |ts| && p != q && ts[p].Some?
      ensures ts[p] != ts[q]
    {
      if p < |teamIds| && q < |teamIds| {
        if p < q {
          assert teamIds[p] != teamIds[q];
        } else {
          assert teamIds[q] != teamIds[p];
        }
      }
    }
  }

  /** The group stage is a complete round robin: for two distinct teams of a
      list without repetitions there is exactly one round in which the
      first is drawn at home against the second. */
  lemma CompleteRoundRobin(teamIds: seq<Id>, seasonId: Id, start: Time, rtype: Option<RoundType>, a: Id, b: Id)
    requires forall i, j :: 0 <= i < j < |teamIds| ==> teamIds[i] != teamIds[j]
    requires a in teamIds && b in teamIds && a != b
    ensures exists k :: 0 <= k < |Schedule(GenerationStrategies.WithBye(teamIds), seasonId, start, rtype)|
                        && Plays(Schedule(GenerationStrategies.WithBye(teamIds), seasonId, start, rtype)[k].fixtures, a, b)
    ensures forall k1, k2 :: 0 <= k1 < |Schedule(GenerationStrategies.WithBye(teamIds), seasonId, start, rtype)|
                          && 0 <= k2 < |Schedule(GenerationStrategies.WithBye(teamIds), seasonId, start, rtype)|
                          && Plays(Schedule(GenerationStrategies.WithBye(teamIds), seasonId, start, rtype)[k1].fixtures, a, b)
                          && Plays(Schedule(GenerationStrategies.WithBye(teamIds), seasonId, start, rtype)[k2].fixtures, a, b)
                          ==> k1 == k2
  {
    var ts0 := GenerationStrategies.WithBye(teamIds);
    var s := Schedule(ts0, seasonId, start, rtype);
    var m := |ts0| - 1;
    var p :| 0 <= p < |teamIds| && teamIds[p] == a;
    var q :| 0 <= q < |teamIds| && teamIds[q] == b;
    WithByeDistinct(teamIds);
    var k := MirrorExists(m, p, q);
    PlaysInRound(ts0, seasonId, start, rtype, k, p, q, a, b);
    forall k1, k2 | 0 <= k1 < |s| && 0 <= k2 < |s| && Plays(s[k1].fixtures, a, b) && Plays(s[k2].fixtures, a, b)
      ensures k1 == k2
    {
      PlaysInRound(ts0, seasonId, start, rtype, k1, p, q, a, b);
      PlaysInRound(ts0, seasonId, start, rtype, k2, p, q, a, b);
      MirrorUnique(m, p, q, k1, k2);
    }
  }
}
