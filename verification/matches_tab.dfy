/**
 * The score-entry form of the matches tab (src/components/MatchesTab.tsx):
 * its own, stricter score check `validateBadmintonScore` and the
 * gate-then-submit sequence of `handleSubmit`.
 */
module MatchesTab {
  import opened Wrappers
  import opened ScoreRules

  /**
   * `validateBadmintonScore`, as the source's chain of early returns.
   * Its contract states the rule by the top score: both scores in 0..30,
   * and a top score of 21 needs the other side at 19 or less, a top score
   * of 22 to 29 needs a margin of exactly two, and a top score of 30 needs
   * the other side at 28 or more. A top score below 21 is refused.
   */
  function ValidBadmintonScore(score1: int, score2: int): (r: bool)
    ensures r <==>
      var hi, lo := Max(score1, score2), Min(score1, score2);
      0 <= lo && hi <= 30 &&
      ((hi == 21 && lo <= 19) || (22 <= hi <= 29 && hi - lo == 2) || (hi == 30 && lo >= 28))
  {
    if score1 < 0 || score2 < 0 then false
    else if score1 > 30 || score2 > 30 then false
    else if score1 < 21 && score2 < 21 then false
    else
      var winner := if score1 > score2 then score1 else score2;
      var loser := if score1 > score2 then score2 else score1;
      if winner < 30 && winner - loser < 2 then false
      else if winner < 30 && winner > 21 && winner - loser != 2 then false
      else if winner == 30 && loser < 28 then false
      else true
  }

  /** Every pair the form accepts is also accepted by the scoring library. */
  lemma BadmintonRefinesSetScore(score1: int, score2: int)
    ensures ValidBadmintonScore(score1, score2) ==> ValidSetScore(score1, score2)
  {
  }

  /** The converse fails: the library takes pairs the form refuses. */
  lemma BadmintonIsStricter()
    ensures ValidSetScore(25, 10) && !ValidBadmintonScore(25, 10)
    ensures ValidSetScore(30, 20) && !ValidBadmintonScore(30, 20)
    ensures ValidSetScore(30, 27) && !ValidBadmintonScore(30, 27)
    ensures ValidBadmintonScore(30, 28) && ValidBadmintonScore(30, 29) && ValidBadmintonScore(30, 30)
    ensures ValidBadmintonScore(21, 19) && !ValidBadmintonScore(21, 20) && ValidBadmintonScore(24, 22)
  {
  }

  /** One `onScoreUpdate(matchId, setNumber, team1Score, team2Score)` call. */
  datatype ScoreCall = ScoreCall(matchId: int, setNumber: int, team1Score: int, team2Score: int)

  /** The two alerts the form can raise. */
  datatype Alert = EnterSet1Scores | InvalidScore

  /** What the gate decides: an alert and no call, or the calls to make, in order. */
  datatype Submission = Rejected(alert: Alert) | Calls(calls: seq<ScoreCall>)

  /** Both fields of a set parsed to numbers. */
  predicate Entered(a: Option<int>, b: Option<int>) { a.Some? && b.Some? }

  /**
   * The decision `handleSubmit` takes from the four parsed fields: set 1
   * must parse and pass the form's check; set 2 is checked and sent only
   * when both its fields parse, and is dropped silently otherwise.
   */
  function Plan(matchId: int, s1t1: Option<int>, s1t2: Option<int>, s2t1: Option<int>, s2t2: Option<int>): (r: Submission)
    ensures r == Rejected(EnterSet1Scores) <==> !Entered(s1t1, s1t2)
    ensures r.Calls? <==>
      Entered(s1t1, s1t2) && ValidBadmintonScore(s1t1.value, s1t2.value) &&
      (Entered(s2t1, s2t2) ==> ValidBadmintonScore(s2t1.value, s2t2.value))
    ensures r.Calls? ==> 1 <= |r.calls| <= 2 && r.calls[0] == ScoreCall(matchId, 1, s1t1.value, s1t2.value)
    ensures r.Calls? ==> (|r.calls| == 2 <==> Entered(s2t1, s2t2))
    ensures r.Calls? && |r.calls| == 2 ==> r.calls[1] == ScoreCall(matchId, 2, s2t1.value, s2t2.value)
  {
    if !Entered(s1t1, s1t2) then Rejected(EnterSet1Scores)
    else if !ValidBadmintonScore(s1t1.value, s1t2.value) then Rejected(InvalidScore)
    else if Entered(s2t1, s2t2) && !ValidBadmintonScore(s2t1.value, s2t2.value) then Rejected(InvalidScore)
    else if Entered(s2t1, s2t2) then
      Calls([ScoreCall(matchId, 1, s1t1.value, s1t2.value), ScoreCall(matchId, 2, s2t1.value, s2t2.value)])
    else Calls([ScoreCall(matchId, 1, s1t1.value, s1t2.value)])
  }

  /**
   * Every call the form makes carries a pair the scoring library accepts,
   * so no call it sends is turned away by the library's score check.
   */
  lemma PlannedCallsAccepted(matchId: int, s1t1: Option<int>, s1t2: Option<int>, s2t1: Option<int>, s2t2: Option<int>)
    ensures var r := Plan(matchId, s1t1, s1t2, s2t1, s2t2);
      r.Calls? ==> forall k :: 0 <= k < |r.calls| ==>
        r.calls[k].matchId == matchId && ValidSetScore(r.calls[k].team1Score, r.calls[k].team2Score)
  {
    var r := Plan(matchId, s1t1, s1t2, s2t1, s2t2);
    if r.Calls? {
      BadmintonRefinesSetScore(s1t1.value, s1t2.value);
      if Entered(s2t1, s2t2) {
        BadmintonRefinesSetScore(s2t1.value, s2t2.value);
      }
    }
  }

  /** The calls actually made: the second is not reached when the first fails. */
  function Issued(calls: seq<ScoreCall>, set1Fails: bool): (r: seq<ScoreCall>)
    requires |calls| >= 1
    ensures 1 <= |r| <= |calls| && r == calls[..|r|]
    ensures |r| < |calls| <==> set1Fails && |calls| > 1
  {
    if set1Fails then calls[..1] else calls
  }

  /** The form submitted all its calls: none of the calls it made failed. */
  predicate Succeeded(calls: seq<ScoreCall>, set1Fails: bool, set2Fails: bool)
    requires |calls| >= 1
  {
    !set1Fails && (|calls| == 2 ==> !set2Fails)
  }

  /** The state of the score-entry form of the matches tab. */
  class ScoreForm {
    var editingMatch: Option<int>
    var set1Team1Score: string
    var set1Team2Score: string
    var set2Team1Score: string
    var set2Team2Score: string
    var submitting: bool
    /** The alerts shown so far. */
    var alerts: seq<Alert>
    /** The `onScoreUpdate` calls made so far. */
    var calls: seq<ScoreCall>

    constructor ()
      ensures editingMatch.None? && !submitting && alerts == [] && calls == []
      ensures set1Team1Score == set1Team2Score == set2Team1Score == set2Team2Score == ""
    {
      editingMatch := None;
      set1Team1Score, set1Team2Score, set2Team1Score, set2Team2Score := "", "", "", "";
      submitting := false;
      alerts, calls := [], [];
    }

    /**
     * `handleSubmit`. `parse` is `parseInt` (None for NaN); `set1Fails`
     * and `set2Fails` say whether the first and second `onScoreUpdate`
     * call is rejected. A rejected submission raises its alert and leaves
     * everything else as it was. Otherwise the calls are made in order up
     * to the first that fails, `submitting` ends false, and the score
     * fields and the edited match are cleared only when no call failed.
     */
    method HandleSubmit(matchId: int, parse: string -> Option<int>, set1Fails: bool, set2Fails: bool)
      modifies this
      ensures var plan := Plan(matchId, parse(old(set1Team1Score)), parse(old(set1Team2Score)),
                                        parse(old(set2Team1Score)), parse(old(set2Team2Score)));
        && (plan.Rejected? ==>
              alerts == old(alerts) + [plan.alert] && calls == old(calls) && submitting == old(submitting) &&
              editingMatch == old(editingMatch) &&
              set1Team1Score == old(set1Team1Score) && set1Team2Score == old(set1Team2Score) &&
              set2Team1Score == old(set2Team1Score) && set2Team2Score == old(set2Team2Score))
        && (plan.Calls? ==>
              alerts == old(alerts) && calls == old(calls) + Issued(plan.calls, set1Fails) && !submitting &&
              (if Succeeded(plan.calls, set1Fails, set2Fails) then
                 editingMatch.None? &&
                 set1Team1Score == set1Team2Score == set2Team1Score == set2Team2Score == ""
               else
                 editingMatch == old(editingMatch) &&
                 set1Team1Score == old(set1Team1Score) && set1Team2Score == old(set1Team2Score) &&
                 set2Team1Score == old(set2Team1Score) && set2Team2Score == old(set2Team2Score)))
    {
      var s1t1 := parse(set1Team1Score);
      var s1t2 := parse(set1Team2Score);
      var s2t1 := parse(set2Team1Score);
      var s2t2 := parse(set2Team2Score);

      if s1t1.None? || s1t2.None? {
        alerts := alerts + [EnterSet1Scores];
        return;
      }
      if !ValidBadmintonScore(s1t1.value, s1t2.value) {
        alerts := alerts + [InvalidScore];
        return;
      }
      if s2t1.Some? && s2t2.Some? {
        if !ValidBadmintonScore(s2t1.value, s2t2.value) {
          alerts := alerts + [InvalidScore];
          return;
        }
      }

      submitting := true;
      calls := calls + [ScoreCall(matchId, 1, s1t1.value, s1t2.value)];
      if set1Fails {
        submitting := false;
        return;
      }
      if s2t1.Some? && s2t2.Some? {
        calls := calls + [ScoreCall(matchId, 2, s2t1.value, s2t2.value)];
        if set2Fails {
          submitting := false;
          return;
        }
      }
      editingMatch := None;
      set1Team1Score, set1Team2Score, set2Team1Score, set2Team2Score := "", "", "", "";
      submitting := false;
    }
  }
}
