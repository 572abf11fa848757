/**
 * Set-score rules of the scoring library (src/lib/gameLogic.ts):
 * `validateSetScore` and `determineSetWinner`.
 *
 * The rule modelled is the one the code applies, which is looser than the
 * "win by exactly two past 21" rule its doc comment describes: any pair in
 * which one side has exactly 30 is accepted (30-0 and 30-30 included), and
 * otherwise any pair in which a side with at least 21 leads by two or more
 * (so 25-10 is accepted).
 */
module ScoreRules {
  import opened Wrappers

  /** The two teams of a tournament (`1 | 2` in the source). */
  datatype Team = Team1 | Team2

  /** The score cap of a set. */
  const MaxScore: int := 30
  /** The score a side must reach to win a set at all. */
  const WinningScore: int := 21

  function Max(a: int, b: int): int { if a >= b then a else b }
  function Min(a: int, b: int): int { if a >= b then b else a }

  /**
   * `validateSetScore`: the early-return chain of the source.
   * Its contract gives the same rule in terms of the higher score `hi` and
   * the lower score `lo`: both in 0..30, and either `hi` is the cap or `hi`
   * reaches 21 with a lead of at least two.
   */
  function ValidSetScore(score1: int, score2: int): (r: bool)
    ensures r <==>
      var hi, lo := Max(score1, score2), Min(score1, score2);
      0 <= lo && hi <= MaxScore &&
      (hi == MaxScore || (hi >= WinningScore && hi - lo >= 2))
  {
    if score1 < 0 || score2 < 0 || score1 > MaxScore || score2 > MaxScore then false
    else if score1 < WinningScore && score2 < WinningScore then false
    else if score1 == MaxScore || score2 == MaxScore then true
    else if score1 >= WinningScore && score1 - score2 >= 2 then true
    else if score2 >= WinningScore && score2 - score1 >= 2 then true
    else false
  }

  /**
   * `determineSetWinner`: no winner for an invalid pair; otherwise team 1
   * exactly when its score is strictly higher, and team 2 in every other
   * case (so the accepted pair 30-30 is credited to team 2).
   */
  function SetWinner(score1: int, score2: int): (r: Option<Team>)
    ensures r.None? <==> !ValidSetScore(score1, score2)
    ensures r == Some(Team1) <==> ValidSetScore(score1, score2) && score1 > score2
    ensures r == Some(Team2) <==> ValidSetScore(score1, score2) && score1 <= score2
  {
    if !ValidSetScore(score1, score2) then None
    else if score1 > score2 then Some(Team1)
    else Some(Team2)
  }

  /** Whenever a winner is named, it scored at least 21 and no less than the other side. */
  lemma WinnerReachedWinningScore(score1: int, score2: int)
    ensures SetWinner(score1, score2) == Some(Team1) ==> score1 >= WinningScore && score1 > score2
    ensures SetWinner(score1, score2) == Some(Team2) ==> score2 >= WinningScore && score2 >= score1
  {
  }

  /** Pairs that show how far the code's rule is from "win by exactly two past 21". */
  lemma ValidSetScoreWitnesses()
    ensures ValidSetScore(30, 0) && ValidSetScore(30, 30) && ValidSetScore(25, 10)
    ensures ValidSetScore(21, 19) && ValidSetScore(23, 21) && ValidSetScore(30, 27)
    ensures !ValidSetScore(25, 24) && !ValidSetScore(20, 19) && !ValidSetScore(31, 10)
    ensures !ValidSetScore(-1, 21) && !ValidSetScore(21, 20)
    ensures SetWinner(30, 30) == Some(Team2) && SetWinner(21, 15) == Some(Team1)
  {
  }
}
