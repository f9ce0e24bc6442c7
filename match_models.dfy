/** The per-map result record of a fixture and the two derived properties the
    record exposes: which team won the map and whether the map was a draw.

    A fixture's second side is optional in this model because the
    single-elimination generator produces fixtures whose `team_2` is None; a
    map "won" by that missing side has no winner id. */
module MatchModels {
  import opened Common

  datatype ConfirmationStatus = PendingConfirmation | Confirmed | Disputed

  /** One row of the `results` table. */
  datatype MapResult = MapResult(
    fixtureId: Id,
    mapId: Id,
    mapNumber: int,
    team1Score: int,
    team2Score: int,
    team1SideFirst: string,
    submittedBy: Id,
    confirmedBy: Option<Id>,
    status: ConfirmationStatus,
    adminOverride: bool,
    adminOverrideBy: Option<Id>,
    adminOverrideReason: Option<string>,
    disputeReason: Option<string>,
    disputeEvidence: seq<string>,
    demoUrl: Option<string>,
    screenshotUrls: seq<string>)

  /** `Result.winner_id`: the id of the side with the higher score, None on
      equal scores. */
  function WinnerId(team1Score: int, team2Score: int, team1: Id, team2: Option<Id>): (w: Option<Id>)
    ensures team1Score > team2Score ==> w == Some(team1)
    ensures team2Score > team1Score ==> w == team2
    ensures team1Score == team2Score ==> w == None
  {
    if team1Score > team2Score then Some(team1)
    else if team2Score > team1Score then team2
    else None
  }

  /** `Result.is_draw`. */
  predicate IsDraw(team1Score: int, team2Score: int)
  {
    team1Score == team2Score
  }

  /** The winner is always one of the fixture's two sides or None. */
  lemma WinnerIsASide(team1Score: int, team2Score: int, team1: Id, team2: Option<Id>)
    ensures var w := WinnerId(team1Score, team2Score, team1, team2);
      w == Some(team1) || w == team2 || w == None
  {
  }

  /** For a fixture between two distinct teams, each branch of `winner_id` is
      an if-and-only-if, and "no winner" is exactly a draw. */
  lemma WinnerIff(team1Score: int, team2Score: int, team1: Id, team2: Id)
    requires team1 != team2
    ensures WinnerId(team1Score, team2Score, team1, Some(team2)) == Some(team1) <==> team1Score > team2Score
    ensures WinnerId(team1Score, team2Score, team1, Some(team2)) == Some(team2) <==> team2Score > team1Score
    ensures WinnerId(team1Score, team2Score, team1, Some(team2)).None? <==> IsDraw(team1Score, team2Score)
  {
  }

  /** Without a second side, a map the missing side "wins" has no winner
      either, so "no winner" is weaker than "draw". */
  lemma WinnerWithoutSecondSide(team1Score: int, team2Score: int, team1: Id)
    ensures WinnerId(team1Score, team2Score, team1, None).None? <==> team2Score >= team1Score
  {
  }

  function MapWinner(r: MapResult, team1: Id, team2: Option<Id>): Option<Id>
  {
    WinnerId(r.team1Score, r.team2Score, team1, team2)
  }
}
