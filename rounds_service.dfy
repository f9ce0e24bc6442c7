/** `RoundService`: creating, starting, completing, extending, forfeiting and
    reopening the rounds of a tournament.

    Every operation checks its guards before it writes anything, so an
    operation that fails leaves the tables as they were: the audited
    transaction rolls back an exception raised inside the operation. The
    round an operation acts on is passed as its id; the caller holds the
    row, so it exists.

    The round table declares no `admin_notes` column, although the
    extension and the reopen log a line there; the model's round carries
    the notes, and `ExtendAsWritten` and `ReopenAsWritten` give the
    operations as written. */
module RoundService {
  import opened Common
  import opened CompetitionData

  /** The messages of `RoundServiceError`. */
  datatype RoundError =
    | TournamentNotFound
    | TournamentClosed
    | NotSequential
    | NotPending
    | PreviousIncomplete
    | NotActive
    | FixturesIncomplete
    | AlreadyCompleted
    | DeadlineNotLater
    | NotCompleted
    | EndNotInFuture
    | TournamentCompleted
    /** The AttributeError of reading `round.admin_notes`, which the round
        table does not declare. */
    | NoAdminNotes

  /** Two round tables with the same rows, each row in the same tournament
      under the same number: lookups by number agree on them. */
  predicate SameShape(a: map<Id, Round>, b: map<Id, Round>)
  {
    && a.Keys == b.Keys
    && forall rid :: rid in a ==>
         a[rid].tournamentId == b[rid].tournamentId && a[rid].roundNumber == b[rid].roundNumber
  }

  lemma NumberedRoundShape(a: map<Id, Round>, b: map<Id, Round>, tid: Id, n: int)
    requires SameShape(a, b)
    ensures NumberedRound(a, tid, n) == NumberedRound(b, tid, n)
  {
    assert RoundsNumbered(a, tid, n) == RoundsNumbered(b, tid, n);
  }

  /** `admin_notes` after an entry is logged: the entry on a new line after
      the existing notes, or the entry alone when there are none (an empty
      note counts as none). */
  function AppendNote(notes: Option<string>, entry: string): (r: Option<string>)
    ensures r.Some? && |r.value| >= |entry| && r.value[|r.value| - |entry|..] == entry
    ensures notes.Some? && notes.value != "" ==> r.value == notes.value + "\n" + entry
    ensures (notes.None? || notes.value == "") ==> r.value == entry
  {
    if notes.Some? && notes.value != "" then Some(notes.value + "\n" + entry) else Some(entry)
  }

  // ---------------------------------------------------------------------
  // create_round

  /** The ids of the rounds of tournament `tid`. */
  function RoundsOf(rounds: map<Id, Round>, tid: Id): set<Id>
  {
    set rid | rid in rounds && rounds[rid].tournamentId == tid
  }

  /** The guards of `create_round`: the tournament exists, is NOT_STARTED
      or IN_PROGRESS, and the new number exceeds the count of its rounds. */
  function CreateCheck(tournaments: map<Id, Tournament>, rounds: map<Id, Round>, tid: Id, n: int): (r: Outcome<RoundError>)
    ensures r.Pass? <==>
      && tid in tournaments
      && tournaments[tid].state in {TournamentState.NotStarted, TournamentState.InProgress}
      && n > |RoundsOf(rounds, tid)|
    ensures tid !in tournaments ==> r == Fail(TournamentNotFound)
    ensures tid in tournaments && tournaments[tid].state !in {TournamentState.NotStarted, TournamentState.InProgress} ==>
      r == Fail(TournamentClosed)
  {
    if tid !in tournaments then Fail(TournamentNotFound)
    else if tournaments[tid].state !in {TournamentState.NotStarted, TournamentState.InProgress} then Fail(TournamentClosed)
    else if n <= |RoundsOf(rounds, tid)| then Fail(NotSequential)
    else Pass
  }

  /** The rounds of `tid` are numbered exactly 1 to their count. */
  predicate Contiguous(rounds: map<Id, Round>, tid: Id)
  {
    && (forall rid :: rid in rounds && rounds[rid].tournamentId == tid ==>
          1 <= rounds[rid].roundNumber <= |RoundsOf(rounds, tid)|)
    && (forall rid1, rid2 ::
          (rid1 in rounds && rid2 in rounds && rid1 != rid2 &&
           rounds[rid1].tournamentId == tid && rounds[rid2].tournamentId == tid) ==>
          rounds[rid1].roundNumber != rounds[rid2].roundNumber)
  }

  /** When the rounds are numbered 1 to their count, the sequential-number
      guard admits only numbers no round of the tournament has yet, and a
      round numbered one past the count keeps the numbering contiguous. */
  lemma CreateKeepsNumbersDistinct(tournaments: map<Id, Tournament>, rounds: map<Id, Round>, tid: Id, nr: Id, round: Round)
    requires Contiguous(rounds, tid)
    requires nr !in rounds && round.tournamentId == tid
    requires CreateCheck(tournaments, rounds, tid, round.roundNumber).Pass?
    ensures forall rid :: rid in rounds && rounds[rid].tournamentId == tid ==> rounds[rid].roundNumber != round.roundNumber
    ensures round.roundNumber == |RoundsOf(rounds, tid)| + 1 ==> Contiguous(rounds[nr := round], tid)
  {
    if round.roundNumber == |RoundsOf(rounds, tid)| + 1 {
      var after := rounds[nr := round];
      assert RoundsOf(after, tid) == RoundsOf(rounds, tid) + {nr};
      var count := |RoundsOf(after, tid)|;
      assert count == |RoundsOf(rounds, tid)| + 1;
      forall rid | rid in after && after[rid].tournamentId == tid
        ensures 1 <= after[rid].roundNumber <= count
      {
        if rid != nr {
          assert after[rid] == rounds[rid];
        }
      }
    }
  }

  /** `create_round`: a new "pending" round. */
  method CreateRound(db: CompetitionDb, tid: Id, rtype: RoundType, n: int, bestOf: int, start: Time, end: Time)
    returns (r: Result<Id, RoundError>)
    modifies db`rounds
    ensures r.Ok? <==> old(CreateCheck(db.tournaments, db.rounds, tid, n)).Pass?
    ensures r.Err? ==> old(CreateCheck(db.tournaments, db.rounds, tid, n)) == Fail(r.error) && db.rounds == old(db.rounds)
    ensures r.Ok? ==> r.value !in old(db.rounds)
    ensures r.Ok? ==> db.rounds == old(db.rounds)[r.value := Round(tid, n, rtype, Some(bestOf), start, end, RoundStatus.Pending, None)]
  {
    var check := CreateCheck(db.tournaments, db.rounds, tid, n);
    if check.Fail? {
      return Err(check.error);
    }
    var id := FreshId(db.rounds.Keys);
    db.rounds := db.rounds[id := Round(tid, n, rtype, Some(bestOf), start, end, RoundStatus.Pending, None)];
    return Ok(id);
  }

  // ---------------------------------------------------------------------
  // start_round, complete_round

  /** The guards of `start_round`: the round is "pending" and, past round 1,
      the first round numbered one below it is "completed" when there is one. */
  function StartCheck(rounds: map<Id, Round>, rid: Id): (r: Outcome<RoundError>)
    requires rid in rounds
    ensures r.Pass? <==> rounds[rid].status == RoundStatus.Pending && PredecessorDone(rounds, rid)
    ensures rounds[rid].status != RoundStatus.Pending ==> r == Fail(NotPending)
  {
    var round := rounds[rid];
    if round.status != RoundStatus.Pending then Fail(NotPending)
    else if round.roundNumber > 1 then
      match NumberedRound(rounds, round.tournamentId, round.roundNumber - 1)
      case Some(prev) => if rounds[prev].status != RoundStatus.Completed then Fail(PreviousIncomplete) else Pass
      case None => Pass
    else Pass
  }

  /** Round 1, or the first round numbered one below is completed or absent. */
  predicate PredecessorDone(rounds: map<Id, Round>, rid: Id)
    requires rid in rounds
  {
    var round := rounds[rid];
    round.roundNumber > 1 ==>
      var prev := NumberedRound(rounds, round.tournamentId, round.roundNumber - 1);
      prev.None? || rounds[prev.value].status == RoundStatus.Completed
  }

  /** Every round of `tid` that has left "pending" follows a completed round. */
  predicate Progressed(rounds: map<Id, Round>, tid: Id)
  {
    forall rid :: rid in rounds && rounds[rid].tournamentId == tid && rounds[rid].status != RoundStatus.Pending ==>
      PredecessorDone(rounds, rid)
  }

  /** The round `rid` with a new status. */
  function WithStatus(rounds: map<Id, Round>, rid: Id, s: RoundStatus): (r: map<Id, Round>)
    requires rid in rounds
    ensures SameShape(rounds, r)
  {
    rounds[rid := rounds[rid].(status := s)]
  }

  /** Starting a round keeps rounds from leaving "pending" before their
      predecessor is completed. */
  lemma {:induction false} StartKeepsProgress(rounds: map<Id, Round>, rid: Id, tid: Id)
    requires rid in rounds && Progressed(rounds, tid)
    requires StartCheck(rounds, rid).Pass?
    ensures Progressed(WithStatus(rounds, rid, RoundStatus.Active), tid)
  {
    var after := WithStatus(rounds, rid, RoundStatus.Active);
    forall q | q in after && after[q].tournamentId == tid && after[q].status != RoundStatus.Pending
      ensures PredecessorDone(after, q)
    {
      NumberedRoundShape(rounds, after, rounds[q].tournamentId, rounds[q].roundNumber - 1);
    }
  }

  /** Completing an active round keeps the same invariant. */
  lemma {:induction false} CompleteKeepsProgress(rounds: map<Id, Round>, rid: Id, tid: Id)
    requires rid in rounds && Progressed(rounds, tid)
    requires rounds[rid].status == RoundStatus.Active
    ensures Progressed(WithStatus(rounds, rid, RoundStatus.Completed), tid)
  {
    var after := WithStatus(rounds, rid, RoundStatus.Completed);
    forall q | q in after && after[q].tournamentId == tid && after[q].status != RoundStatus.Pending
      ensures PredecessorDone(after, q)
    {
      NumberedRoundShape(rounds, after, rounds[q].tournamentId, rounds[q].roundNumber - 1);
    }
  }

  /** `start_round`. */
  method StartRound(db: CompetitionDb, rid: Id) returns (r: Outcome<RoundError>)
    requires rid in db.rounds
    modifies db`rounds
    ensures r == old(StartCheck(db.rounds, rid))
    ensures r.Fail? ==> db.rounds == old(db.rounds)
    ensures r.Pass? ==> db.rounds == WithStatus(old(db.rounds), rid, RoundStatus.Active)
  {
    r := StartCheck(db.rounds, rid);
    if r.Pass? {
      db.rounds := WithStatus(db.rounds, rid, RoundStatus.Active);
    }
  }

  /** Every fixture of round `rid` has status "completed". */
  predicate AllCompleted(fixtures: map<Id, Fixture>, rid: Id)
  {
    forall fid :: fid in fixtures && fixtures[fid].roundId == rid ==> fixtures[fid].status == FixtureStatus.Completed
  }

  /** The guards of `complete_round`: the round is "active" and every one of
      its fixtures is COMPLETED (a FORFEITED fixture does not count). */
  function CompleteCheck(rounds: map<Id, Round>, fixtures: map<Id, Fixture>, rid: Id): (r: Outcome<RoundError>)
    requires rid in rounds
    ensures r.Pass? <==> rounds[rid].status == RoundStatus.Active && AllCompleted(fixtures, rid)
    ensures rounds[rid].status != RoundStatus.Active ==> r == Fail(NotActive)
    ensures rounds[rid].status == RoundStatus.Active && !AllCompleted(fixtures, rid) ==> r == Fail(FixturesIncomplete)
  {
    if rounds[rid].status != RoundStatus.Active then Fail(NotActive)
    else if !AllCompleted(fixtures, rid) then Fail(FixturesIncomplete)
    else Pass
  }

  /** A round with a forfeited fixture cannot be completed by this service. */
  lemma ForfeitBlocksCompletion(rounds: map<Id, Round>, fixtures: map<Id, Fixture>, rid: Id, fid: Id)
    requires rid in rounds && fid in fixtures
    requires fixtures[fid].roundId == rid && fixtures[fid].status == FixtureStatus.Forfeited
    ensures CompleteCheck(rounds, fixtures, rid).Fail?
  {
  }

  /** `complete_round`. */
  method CompleteRound(db: CompetitionDb, rid: Id) returns (r: Outcome<RoundError>)
    requires rid in db.rounds
    modifies db`rounds
    ensures r == old(CompleteCheck(db.rounds, db.fixtures, rid))
    ensures r.Fail? ==> db.rounds == old(db.rounds)
    ensures r.Pass? ==> db.rounds == WithStatus(old(db.rounds), rid, RoundStatus.Completed)
  {
    r := CompleteCheck(db.rounds, db.fixtures, rid);
    if r.Pass? {
      db.rounds := WithStatus(db.rounds, rid, RoundStatus.Completed);
    }
  }

  // ---------------------------------------------------------------------
  // validate_round_dates, get_round_summary

  /** `validate_round_dates`: a round may start no earlier than the end of
      registration and end no later than the tournament's scheduled end. */
  function ValidateRoundDates(tournaments: map<Id, Tournament>, tid: Id, start: Time, end: Time): (r: Result<bool, RoundError>)
    ensures r.Err? <==> tid !in tournaments
    ensures r.Err? ==> r.error == TournamentNotFound
    ensures r.Ok? ==> (r.value <==> tournaments[tid].registrationEnd <= start && end <= tournaments[tid].scheduledEnd)
  {
    if tid !in tournaments then Err(TournamentNotFound)
    else if start < tournaments[tid].registrationEnd then Ok(false)
    else if end > tournaments[tid].scheduledEnd then Ok(false)
    else Ok(true)
  }

  datatype RoundSummary = RoundSummary(
    totalFixtures: nat,
    completedFixtures: nat,
    scheduledFixtures: nat,
    cancelledFixtures: nat,
    completionPercentage: real)

  /** The statuses of the round's fixtures, in listing order. */
  function StatusesOf(fixtures: map<Id, Fixture>, rid: Id): (s: seq<FixtureStatus>)
    ensures |s| == |RoundFixtureList(fixtures, rid)|
  {
    var fids := RoundFixtureList(fixtures, rid);
    seq(|fids|, i requires 0 <= i < |fids| => fixtures[fids[i]].status)
  }

  /** Fixtures of one status are counted in one bucket only. */
  lemma {:induction false} StatusBuckets(s: seq<FixtureStatus>)
    ensures CountIf(s, x => x == FixtureStatus.Completed) + CountIf(s, x => x == FixtureStatus.Scheduled)
          + CountIf(s, x => x == FixtureStatus.Cancelled) <= |s|
  {
    if s != [] {
      StatusBuckets(s[1..]);
    }
  }

  /** Counting "completed" statuses finds them all exactly when every
      fixture of the round is COMPLETED. */
  lemma CompletedCountMeaning(fixtures: map<Id, Fixture>, rid: Id)
    ensures var s := StatusesOf(fixtures, rid);
      CountIf(s, x => x == FixtureStatus.Completed) == |s| <==> AllCompleted(fixtures, rid)
  {
    var s := StatusesOf(fixtures, rid);
    var fids := RoundFixtureList(fixtures, rid);
    if CountIf(s, x => x == FixtureStatus.Completed) == |s| {
      forall fid | fid in fixtures && fixtures[fid].roundId == rid
        ensures fixtures[fid].status == FixtureStatus.Completed
      {
        var i :| 0 <= i < |fids| && fids[i] == fid;
        assert s[i] == FixtureStatus.Completed;
      }
    } else {
      var i :| 0 <= i < |s| && s[i] != FixtureStatus.Completed;
      assert fixtures[fids[i]].status != FixtureStatus.Completed;
    }
  }

  /** `completed / total * 100`, or 0 for an empty round. */
  function Percentage(completed: nat, total: nat): (p: real)
    requires completed <= total
    ensures 0.0 <= p <= 100.0
    ensures p == 100.0 <==> total > 0 && completed == total
    ensures p == 0.0 <==> completed == 0
  {
    if total == 0 then 0.0
    else
      var q := (completed as real) / (total as real);
      assert q * (total as real) == completed as real;
      q * 100.0
  }

  /** `get_round_summary`: counts per status and the completion percentage. */
  function GetRoundSummary(fixtures: map<Id, Fixture>, rid: Id): (r: RoundSummary)
    ensures r.totalFixtures == |FixturesOf(fixtures, rid)|
    ensures r.completedFixtures + r.scheduledFixtures + r.cancelledFixtures <= r.totalFixtures
    ensures 0.0 <= r.completionPercentage <= 100.0
    ensures r.completionPercentage == 100.0 <==> r.totalFixtures > 0 && AllCompleted(fixtures, rid)
    ensures r.completedFixtures == 0 <==> r.completionPercentage == 0.0
  {
    var s := StatusesOf(fixtures, rid);
    var completed := CountIf(s, x => x == FixtureStatus.Completed);
    StatusBuckets(s);
    CompletedCountMeaning(fixtures, rid);
    RoundSummary(|s|, completed, CountIf(s, x => x == FixtureStatus.Scheduled),
                 CountIf(s, x => x == FixtureStatus.Cancelled), Percentage(completed, |s|))
  }

  // ---------------------------------------------------------------------
  // extend_round_deadline and _cascade_round_dates

  /** The rounds of `tid` met by following round numbers up from `k`: the
      first round numbered k, then k + 1, ..., up to the first missing number. */
  function Chain(rounds: map<Id, Round>, tid: Id, k: int): (c: seq<Id>)
    ensures forall i :: 0 <= i < |c| ==>
      c[i] in rounds && rounds[c[i]].tournamentId == tid && rounds[c[i]].roundNumber == k + i
    decreases |Later(rounds, tid, k)|
  {
    match NumberedRound(rounds, tid, k)
    case None => []
    case Some(rid) =>
      assert rid in Later(rounds, tid, k) - Later(rounds, tid, k + 1);
      ProperSubsetCard(Later(rounds, tid, k + 1), Later(rounds, tid, k));
      [rid] + Chain(rounds, tid, k + 1)
  }

  /** The rounds of `tid` numbered `k` or more. */
  function Later(rounds: map<Id, Round>, tid: Id, k: int): set<Id>
  {
    set rid | rid in rounds && rounds[rid].tournamentId == tid && rounds[rid].roundNumber >= k
  }

  /** Each step of the chain is the round `_get_next_round` returns... */
  lemma {:induction false} ChainAt(rounds: map<Id, Round>, tid: Id, k: int, i: nat)
    requires i < |Chain(rounds, tid, k)|
    ensures NumberedRound(rounds, tid, k + i) == Some(Chain(rounds, tid, k)[i])
    decreases i
  {
    if i > 0 {
      ChainAt(rounds, tid, k + 1, i - 1);
      assert (k + 1) + (i - 1) == k + i;
    }
  }

  /** ... and the chain stops where `_get_next_round` finds nothing. */
  lemma {:induction false} ChainEnd(rounds: map<Id, Round>, tid: Id, k: int)
    ensures NumberedRound(rounds, tid, k + |Chain(rounds, tid, k)|).None?
    decreases |Later(rounds, tid, k)|
  {
    if NumberedRound(rounds, tid, k).Some? {
      var rid := NumberedRound(rounds, tid, k).value;
      assert rid in Later(rounds, tid, k) - Later(rounds, tid, k + 1);
      ProperSubsetCard(Later(rounds, tid, k + 1), Later(rounds, tid, k));
      ChainEnd(rounds, tid, k + 1);
      assert k + |Chain(rounds, tid, k)| == (k + 1) + |Chain(rounds, tid, k + 1)|;
    }
  }

  /** The rounds of a chain are distinct: each carries its own number. */
  lemma ChainDistinct(rounds: map<Id, Round>, tid: Id, k: int, i: int, j: int)
    requires 0 <= i < j < |Chain(rounds, tid, k)|
    ensures Chain(rounds, tid, k)[i] != Chain(rounds, tid, k)[j]
  {
  }

  /** A round moved `diff` later in time. */
  function Shift(r: Round, diff: int): (s: Round)
    ensures s.endDate - s.startDate == r.endDate - r.startDate
    ensures s.startDate == r.startDate + diff
    ensures s == r.(startDate := s.startDate, endDate := s.endDate)
  {
    r.(startDate := r.startDate + diff, endDate := r.endDate + diff)
  }

  /** The round table after `_cascade_round_dates` from the round numbered
      `k`: each round met along the numbers k, k + 1, ... moved by `diff`. */
  function Cascaded(rounds: map<Id, Round>, tid: Id, k: int, diff: int): map<Id, Round>
    decreases |Later(rounds, tid, k)|
  {
    match NumberedRound(rounds, tid, k)
    case None => rounds
    case Some(rid) =>
      var moved := rounds[rid := Shift(rounds[rid], diff)];
      assert rid in Later(rounds, tid, k) - Later(rounds, tid, k + 1);
      ProperSubsetCard(Later(rounds, tid, k + 1), Later(rounds, tid, k));
      assert Later(moved, tid, k + 1) == Later(rounds, tid, k + 1);
      Cascaded(moved, tid, k + 1, diff)
  }

  /** The chain depends only on which rounds there are and their numbers. */
  lemma {:induction false} ChainShape(a: map<Id, Round>, b: map<Id, Round>, tid: Id, k: int)
    requires SameShape(a, b)
    ensures Chain(a, tid, k) == Chain(b, tid, k)
    decreases |Later(a, tid, k)|
  {
    NumberedRoundShape(a, b, tid, k);
    if NumberedRound(a, tid, k).Some? {
      var rid := NumberedRound(a, tid, k).value;
      assert rid in Later(a, tid, k) - Later(a, tid, k + 1);
      ProperSubsetCard(Later(a, tid, k + 1), Later(a, tid, k));
      ChainShape(a, b, tid, k + 1);
    }
  }

  /** The cascade moves exactly the rounds of the chain from `k`, each by
      `diff`, and leaves every other round as it was. */
  lemma {:induction false} CascadedMovesChain(rounds: map<Id, Round>, tid: Id, k: int, diff: int, q: Id)
    requires q in rounds
    ensures q in Cascaded(rounds, tid, k, diff)
    ensures Cascaded(rounds, tid, k, diff)[q] ==
      if q in Chain(rounds, tid, k) then Shift(rounds[q], diff) else rounds[q]
    decreases |Later(rounds, tid, k)|
  {
    if NumberedRound(rounds, tid, k).Some? {
      var rid := NumberedRound(rounds, tid, k).value;
      var moved := rounds[rid := Shift(rounds[rid], diff)];
      assert rid in Later(rounds, tid, k) - Later(rounds, tid, k + 1);
      ProperSubsetCard(Later(rounds, tid, k + 1), Later(rounds, tid, k));
      assert Later(moved, tid, k + 1) == Later(rounds, tid, k + 1);
      assert SameShape(rounds, moved);
      ChainShape(rounds, moved, tid, k + 1);
      CascadedMovesChain(moved, tid, k + 1, diff, q);
      var c := Chain(rounds, tid, k + 1);
      assert Chain(rounds, tid, k) == [rid] + c;
      assert rid !in c;
    }
  }

  /** The cascade keeps the spacing between consecutive rounds of the chain. */
  lemma CascadeKeepsSpacing(rounds: map<Id, Round>, tid: Id, k: int, diff: int, i: int)
    requires 0 <= i < |Chain(rounds, tid, k)| - 1
    ensures var c := Chain(rounds, tid, k);
      var after := Cascaded(rounds, tid, k, diff);
      c[i] in after && c[i + 1] in after &&
      after[c[i + 1]].startDate - after[c[i]].endDate == rounds[c[i + 1]].startDate - rounds[c[i]].endDate
  {
    var c := Chain(rounds, tid, k);
    CascadedMovesChain(rounds, tid, k, diff, c[i]);
    CascadedMovesChain(rounds, tid, k, diff, c[i + 1]);
  }

  /** `_cascade_round_dates`: the loop from round `first` along the round
      numbers, moving each round by `diff`. */
  method CascadeRoundDates(db: CompetitionDb, first: Id, diff: int)
    requires first in db.rounds
    requires NumberedRound(db.rounds, db.rounds[first].tournamentId, db.rounds[first].roundNumber) == Some(first)
    modifies db`rounds
    ensures db.rounds == Cascaded(old(db.rounds), old(db.rounds[first].tournamentId), old(db.rounds[first].roundNumber), diff)
  {
    var tid, k := db.rounds[first].tournamentId, db.rounds[first].roundNumber;
    var rounds := db.rounds;
    var current: Option<Id> := Some(first);
    while current.Some?
      invariant current == NumberedRound(rounds, tid, k)
      invariant Cascaded(rounds, tid, k, diff) == Cascaded(old(db.rounds), tid, old(db.rounds[first].roundNumber), diff)
      decreases |Later(rounds, tid, k)|
    {
      var rid := current.value;
      var moved := rounds[rid := Shift(rounds[rid], diff)];
      assert rid in Later(rounds, tid, k) - Later(rounds, tid, k + 1);
      ProperSubsetCard(Later(rounds, tid, k + 1), Later(rounds, tid, k));
      assert Later(moved, tid, k + 1) == Later(rounds, tid, k + 1);
      assert SameShape(rounds, moved);
      NumberedRoundShape(rounds, moved, tid, k + 1);
      rounds := moved;
      current := NumberedRound(rounds, tid, rounds[rid].roundNumber + 1);
      k := k + 1;
    }
    db.rounds := rounds;
  }

  /** The guards of `extend_round_deadline`. */
  function ExtendCheck(round: Round, newEnd: Time): (r: Outcome<RoundError>)
    ensures r.Pass? <==> round.status != RoundStatus.Completed && newEnd > round.endDate
    ensures round.status == RoundStatus.Completed ==> r == Fail(AlreadyCompleted)
  {
    if round.status == RoundStatus.Completed then Fail(AlreadyCompleted)
    else if newEnd <= round.endDate then Fail(DeadlineNotLater)
    else Pass
  }

  /** The round table after a successful `extend_round_deadline`: when the
      new end reaches the next round's start, the rounds from the next one on
      move by the extension; then the round ends at `newEnd` with `note`
      logged. */
  function Extended(rounds: map<Id, Round>, rid: Id, newEnd: Time, note: string): map<Id, Round>
    requires rid in rounds
  {
    var round := rounds[rid];
    var next := NumberedRound(rounds, round.tournamentId, round.roundNumber + 1);
    var moved :=
      if next.Some? && newEnd >= rounds[next.value].startDate
      then Cascaded(rounds, round.tournamentId, round.roundNumber + 1, newEnd - round.endDate)
      else rounds;
    moved[rid := round.(endDate := newEnd, adminNotes := AppendNote(round.adminNotes, note))]
  }

  /** Extending a deadline never makes a round overlap its successor: if the
      round ended by the time the next one started, it still does. */
  lemma ExtendKeepsSuccessorAfter(rounds: map<Id, Round>, rid: Id, newEnd: Time, note: string)
    requires rid in rounds && ExtendCheck(rounds[rid], newEnd).Pass?
    requires NumberedRound(rounds, rounds[rid].tournamentId, rounds[rid].roundNumber + 1).Some?
    ensures var next := NumberedRound(rounds, rounds[rid].tournamentId, rounds[rid].roundNumber + 1).value;
      var after := Extended(rounds, rid, newEnd, note);
      && rid in after && next in after
      && (rounds[rid].endDate <= rounds[next].startDate ==> after[rid].endDate <= after[next].startDate)
  {
    var round := rounds[rid];
    var next := NumberedRound(rounds, round.tournamentId, round.roundNumber + 1).value;
    var c := Chain(rounds, round.tournamentId, round.roundNumber + 1);
    ChainEnd(rounds, round.tournamentId, round.roundNumber + 1);
    assert |c| != 0;
    ChainAt(rounds, round.tournamentId, round.roundNumber + 1, 0);
    assert c[0] == next && next != rid;
    CascadedMovesChain(rounds, round.tournamentId, round.roundNumber + 1, newEnd - round.endDate, next);
  }

  /** Extending a deadline moves only the round itself and rounds of the
      same tournament numbered above it, and moves each later round by the
      same amount, keeping its length. */
  lemma ExtendMovesOnlyLaterRounds(rounds: map<Id, Round>, rid: Id, newEnd: Time, note: string, q: Id)
    requires rid in rounds && q in rounds && q != rid
    ensures var after := Extended(rounds, rid, newEnd, note);
      && q in after
      && after[q].endDate - after[q].startDate == rounds[q].endDate - rounds[q].startDate
      && (after[q] != rounds[q] ==>
            && rounds[q].tournamentId == rounds[rid].tournamentId
            && rounds[q].roundNumber > rounds[rid].roundNumber
            && after[q] == Shift(rounds[q], newEnd - rounds[rid].endDate))
  {
    var round := rounds[rid];
    var next := NumberedRound(rounds, round.tournamentId, round.roundNumber + 1);
    var after := Extended(rounds, rid, newEnd, note);
    if next.Some? && newEnd >= rounds[next.value].startDate {
      var moved := Cascaded(rounds, round.tournamentId, round.roundNumber + 1, newEnd - round.endDate);
      CascadedMovesChain(rounds, round.tournamentId, round.roundNumber + 1, newEnd - round.endDate, q);
      assert after[q] == moved[q];
      var c := Chain(rounds, round.tournamentId, round.roundNumber + 1);
      if q in c {
        var i :| 0 <= i < |c| && c[i] == q;
        assert rounds[q].roundNumber == round.roundNumber + 1 + i;
      }
    } else {
      assert after[q] == rounds[q];
    }
  }

  /** `extend_round_deadline` as written: once the guards pass, reading
      `round.admin_notes` raises, and the transaction is rolled back. */
  function ExtendAsWritten(round: Round, newEnd: Time): (r: Outcome<RoundError>)
    ensures r.Fail?
    ensures ExtendCheck(round, newEnd).Fail? ==> r == ExtendCheck(round, newEnd)
    ensures ExtendCheck(round, newEnd).Pass? ==> r == Fail(NoAdminNotes)
  {
    if ExtendCheck(round, newEnd).Fail? then ExtendCheck(round, newEnd) else Fail(NoAdminNotes)
  }

  /** An active round ending at 10 extended to 20: the intended extension
      passes, the written one raises. */
  lemma ExtendCounterexample(tid: Id)
    ensures var round := Round(tid, 1, GroupStage, Some(3), 0, 10, RoundStatus.Active, None);
      ExtendCheck(round, 20).Pass? && ExtendAsWritten(round, 20) == Fail(NoAdminNotes)
  {
  }

  /** `extend_round_deadline`. `note` is the logged line, "Deadline extended
      by <actor name>: <reason>". */
  method ExtendRoundDeadline(db: CompetitionDb, rid: Id, newEnd: Time, note: string) returns (r: Outcome<RoundError>)
    requires rid in db.rounds
    modifies db`rounds
    ensures r == ExtendCheck(old(db.rounds[rid]), newEnd)
    ensures r.Fail? ==> db.rounds == old(db.rounds)
    ensures r.Pass? ==> db.rounds == Extended(old(db.rounds), rid, newEnd, note)
  {
    var round := db.rounds[rid];
    r := ExtendCheck(round, newEnd);
    if r.Fail? {
      return;
    }
    var next := NumberedRound(db.rounds, round.tournamentId, round.roundNumber + 1);
    if next.Some? && newEnd >= db.rounds[next.value].startDate {
      CascadeRoundDates(db, next.value, newEnd - round.endDate);
    }
    db.rounds := db.rounds[rid := round.(endDate := newEnd, adminNotes := AppendNote(round.adminNotes, note))];
  }

  // ---------------------------------------------------------------------
  // forfeit_unplayed_fixtures

  /** A fixture not yet played: SCHEDULED or IN_PROGRESS. */
  predicate Unplayed(f: Fixture)
  {
    f.status == FixtureStatus.Scheduled || f.status == FixtureStatus.InProgress
  }

  /** The unplayed fixtures of round `rid`. */
  function UnplayedOf(fixtures: map<Id, Fixture>, rid: Id): set<Id>
  {
    set fid | fid in fixtures && fixtures[fid].roundId == rid && Unplayed(fixtures[fid])
  }

  /** A fixture forfeited at the deadline: FORFEITED with the note, and no
      winner set by this step. */
  function AutoForfeited(f: Fixture, notes: string): (g: Fixture)
    ensures g.status == FixtureStatus.Forfeited && g.forfeitWinner == f.forfeitWinner
    ensures g.(status := f.status, adminNotes := f.adminNotes) == f
  {
    f.(status := FixtureStatus.Forfeited, adminNotes := Some("Auto-forfeited due to round deadline: " + notes))
  }

  /** The fixture table after the deadline forfeits of round `rid`: its
      unplayed fixtures forfeited, every other fixture as it was. */
  function ForfeitedAtDeadline(fixtures: map<Id, Fixture>, rid: Id, notes: string): map<Id, Fixture>
  {
    map fid | fid in fixtures :: if fid in UnplayedOf(fixtures, rid) then AutoForfeited(fixtures[fid], notes) else fixtures[fid]
  }

  /** After the deadline forfeits every fixture of the round is finished or
      cancelled, the completed ones are as they were, and no other round's
      fixtures change. */
  lemma DeadlineLeavesNothingUnplayed(fixtures: map<Id, Fixture>, rid: Id, notes: string, fid: Id)
    requires fid in fixtures
    ensures var after := ForfeitedAtDeadline(fixtures, rid, notes);
      && after.Keys == fixtures.Keys
      && (fixtures[fid].roundId == rid ==> Finished(after[fid].status) || after[fid].status == FixtureStatus.Cancelled)
      && (fixtures[fid].roundId != rid || !Unplayed(fixtures[fid]) ==> after[fid] == fixtures[fid])
  {
  }

  /** The loop of `forfeit_unplayed_fixtures` over the unplayed fixtures of
      the round, on the fixture table; the fixtures are listed in the order
      the loop meets them. */
  method ForfeitEachUnplayed(f0: map<Id, Fixture>, rid: Id, notes: string)
    returns (unplayed: seq<Id>, fixtures: map<Id, Fixture>)
    ensures forall fid :: fid in unplayed <==> fid in UnplayedOf(f0, rid)
    ensures fixtures == ForfeitedAtDeadline(f0, rid, notes)
  {
    var remaining := UnplayedOf(f0, rid);
    unplayed, fixtures := [], f0;
    while remaining != {}
      invariant remaining <= UnplayedOf(f0, rid)
      invariant forall fid :: fid in unplayed <==> fid in UnplayedOf(f0, rid) - remaining
      invariant forall fid :: fid in fixtures <==> fid in f0
      invariant forall fid :: fid in f0 ==>
        fixtures[fid] == if fid in unplayed then AutoForfeited(f0[fid], notes) else f0[fid]
      decreases remaining
    {
      var fid :| fid in remaining;
      fixtures := fixtures[fid := AutoForfeited(fixtures[fid], notes)];
      unplayed := unplayed + [fid];
      remaining := remaining - {fid};
    }
    ForfeitedAllListed(f0, rid, notes, unplayed, fixtures);
  }

  /** Once every listed fixture is forfeited, the table is the deadline forfeit. */
  lemma ForfeitedAllListed(f0: map<Id, Fixture>, rid: Id, notes: string, unplayed: seq<Id>, fixtures: map<Id, Fixture>)
    requires forall fid :: fid in unplayed <==> fid in UnplayedOf(f0, rid)
    requires forall fid :: fid in fixtures <==> fid in f0
    requires forall fid :: fid in f0 ==> fixtures[fid] == if fid in unplayed then AutoForfeited(f0[fid], notes) else f0[fid]
    ensures fixtures == ForfeitedAtDeadline(f0, rid, notes)
  {
    MapsAgree(fixtures, ForfeitedAtDeadline(f0, rid, notes));
  }

  /** `forfeit_unplayed_fixtures`: returns the fixtures it forfeited. */
  method ForfeitUnplayedFixtures(db: CompetitionDb, rid: Id, notes: string) returns (r: Result<seq<Id>, RoundError>)
    requires rid in db.rounds
    modifies db`rounds, db`fixtures
    ensures r.Err? <==> old(db.rounds[rid].status) == RoundStatus.Completed
    ensures r.Err? ==> r.error == AlreadyCompleted && db.rounds == old(db.rounds) && db.fixtures == old(db.fixtures)
    ensures r.Ok? ==> (forall fid :: fid in r.value <==> fid in UnplayedOf(old(db.fixtures), rid))
    ensures r.Ok? ==> db.fixtures == ForfeitedAtDeadline(old(db.fixtures), rid, notes)
    ensures r.Ok? ==> db.rounds == WithStatus(old(db.rounds), rid, RoundStatus.Completed)
  {
    if db.rounds[rid].status == RoundStatus.Completed {
      return Err(AlreadyCompleted);
    }
    var unplayed, fixtures := ForfeitEachUnplayed(db.fixtures, rid, notes);
    db.fixtures := fixtures;
    db.rounds := WithStatus(db.rounds, rid, RoundStatus.Completed);
    return Ok(unplayed);
  }

  // ---------------------------------------------------------------------
  // reopen_round

  /** The guards of `reopen_round`. A round whose tournament row is missing
      fails as the attribute read on None would. */
  function ReopenCheck(tournaments: map<Id, Tournament>, round: Round, newEnd: Time, now: Time): (r: Outcome<RoundError>)
    ensures r.Pass? <==>
      && round.status == RoundStatus.Completed
      && newEnd > now
      && round.tournamentId in tournaments
      && tournaments[round.tournamentId].state != TournamentState.Completed
    ensures round.status != RoundStatus.Completed ==> r == Fail(NotCompleted)
  {
    if round.status != RoundStatus.Completed then Fail(NotCompleted)
    else if newEnd <= now then Fail(EndNotInFuture)
    else if round.tournamentId !in tournaments then Fail(TournamentNotFound)
    else if tournaments[round.tournamentId].state == TournamentState.Completed then Fail(TournamentCompleted)
    else Pass
  }

  /** The round table after a successful `reopen_round`: the round is
      "active" again until `newEnd` with `note` logged, and the next round is
      back to "pending", starting at `newEnd`. */
  function Reopened(rounds: map<Id, Round>, rid: Id, newEnd: Time, note: string): (r: map<Id, Round>)
    requires rid in rounds
    ensures SameShape(rounds, r)
  {
    var round := rounds[rid];
    var reopened := rounds[rid := round.(status := RoundStatus.Active, endDate := newEnd,
                                         adminNotes := AppendNote(round.adminNotes, note))];
    match NumberedRound(rounds, round.tournamentId, round.roundNumber + 1)
    case None => reopened
    case Some(next) => reopened[next := reopened[next].(status := RoundStatus.Pending, startDate := newEnd)]
  }

  /** After a reopen the round is the active one and its successor waits
      for it, starting exactly when it now ends. */
  lemma ReopenedRoundPrecedesNext(rounds: map<Id, Round>, rid: Id, newEnd: Time, note: string)
    requires rid in rounds
    ensures var after := Reopened(rounds, rid, newEnd, note);
      && after[rid].status == RoundStatus.Active && after[rid].endDate == newEnd
      && forall next :: NumberedRound(after, rounds[rid].tournamentId, rounds[rid].roundNumber + 1) == Some(next) ==>
           after[next].status == RoundStatus.Pending && after[next].startDate == after[rid].endDate
  {
    var after := Reopened(rounds, rid, newEnd, note);
    NumberedRoundShape(rounds, after, rounds[rid].tournamentId, rounds[rid].roundNumber + 1);
  }

  /** `reopen_round` as written: once the guards pass, reading
      `round.admin_notes` raises, and the transaction is rolled back. */
  function ReopenAsWritten(tournaments: map<Id, Tournament>, round: Round, newEnd: Time, now: Time): (r: Outcome<RoundError>)
    ensures r.Fail?
    ensures ReopenCheck(tournaments, round, newEnd, now).Fail? ==> r == ReopenCheck(tournaments, round, newEnd, now)
    ensures ReopenCheck(tournaments, round, newEnd, now).Pass? ==> r == Fail(NoAdminNotes)
  {
    if ReopenCheck(tournaments, round, newEnd, now).Fail? then ReopenCheck(tournaments, round, newEnd, now)
    else Fail(NoAdminNotes)
  }

  /** A completed round of a tournament in progress, reopened until 20 at
      time 5: the intended reopen passes, the written one raises. */
  lemma ReopenCounterexample(tournaments: map<Id, Tournament>, tid: Id)
    requires tid in tournaments && tournaments[tid].state == TournamentState.InProgress
    ensures var round := Round(tid, 1, GroupStage, Some(3), 0, 4, RoundStatus.Completed, None);
      ReopenCheck(tournaments, round, 20, 5).Pass? && ReopenAsWritten(tournaments, round, 20, 5) == Fail(NoAdminNotes)
  {
  }

  /** `reopen_round`; `note` is "Round reopened by <actor name>: <reason>". */
  method ReopenRound(db: CompetitionDb, rid: Id, newEnd: Time, now: Time, note: string) returns (r: Outcome<RoundError>)
    requires rid in db.rounds
    modifies db`rounds
    ensures r == ReopenCheck(db.tournaments, old(db.rounds[rid]), newEnd, now)
    ensures r.Fail? ==> db.rounds == old(db.rounds)
    ensures r.Pass? ==> db.rounds == Reopened(old(db.rounds), rid, newEnd, note)
  {
    var round := db.rounds[rid];
    r := ReopenCheck(db.tournaments, round, newEnd, now);
    if r.Fail? {
      return;
    }
    var next := NumberedRound(db.rounds, round.tournamentId, round.roundNumber + 1);
    db.rounds := db.rounds[rid := round.(status := RoundStatus.Active, endDate := newEnd,
                                         adminNotes := AppendNote(round.adminNotes, note))];
    if next.Some? {
      db.rounds := db.rounds[next.value := db.rounds[next.value].(status := RoundStatus.Pending, startDate := newEnd)];
    }
  }
}
