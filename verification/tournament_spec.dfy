/**
 * Value-level view of the scoring engine of src/lib/gameLogic.ts: the
 * records of the source as datatypes, the fixed fixture chart, what one
 * score submission does to a match, the recount of the aggregates and the
 * tournament-winner rule. The classes in tournament.dfy are specified
 * against these functions.
 */
module TournamentSpec {
  import opened Wrappers
  import opened ScoreRules

  datatype MatchType = XD | MD | WD

  /** `'M' | 'W'`. */
  datatype Gender = Man | Woman

  datatype Player = Player(id: int, name: string, gender: Gender, teamNumber: Team)

  datatype SetScore = SetScore(team1Score: int, team2Score: int, winner: Option<Team>)

  /** The fields of one `Match` object at one moment. */
  datatype MatchData = MatchData(
    id: int,
    matchType: MatchType,
    team1Player1Id: int,
    team1Player2Id: int,
    team2Player1Id: int,
    team2Player2Id: int,
    set1: Option<SetScore>,
    set2: Option<SetScore>,
    completed: bool,
    matchWinner: Option<Team>)

  /** The four counters that `calculateTournamentStats` accumulates. */
  datatype Aggregates = Aggregates(
    team1SetsWon: int,
    team2SetsWon: int,
    team1TotalPoints: int,
    team2TotalPoints: int)

  const Zero: Aggregates := Aggregates(0, 0, 0, 0)

  /** The number of sets a team needs to win the tournament outright (half of 18). */
  const SetsToWin: int := 9

  // ---------------------------------------------------------------------
  // Well-formed matches

  /** A stored set whose scores pass the library rule and whose winner is the one that rule names. */
  predicate ValidSet(s: SetScore) {
    ValidSetScore(s.team1Score, s.team2Score) &&
    s.winner == SetWinner(s.team1Score, s.team2Score)
  }

  /**
   * The state every match reached through the engine is in: present sets
   * are valid, a match is completed exactly when both sets are present, and
   * then (and only then) it has a winner.
   */
  predicate WellFormed(m: MatchData) {
    (m.set1.Some? ==> ValidSet(m.set1.value)) &&
    (m.set2.Some? ==> ValidSet(m.set2.value)) &&
    (m.completed <==> m.set1.Some? && m.set2.Some?) &&
    (m.matchWinner.Some? <==> m.completed)
  }

  predicate AllWellFormed(ms: seq<MatchData>) {
    forall i :: 0 <= i < |ms| ==> WellFormed(ms[i])
  }

  /** Two views of the same match slot: id, type and players agree. */
  predicate SameFixture(a: MatchData, b: MatchData) {
    a.id == b.id && a.matchType == b.matchType &&
    a.team1Player1Id == b.team1Player1Id && a.team1Player2Id == b.team1Player2Id &&
    a.team2Player1Id == b.team2Player1Id && a.team2Player2Id == b.team2Player2Id
  }

  // ---------------------------------------------------------------------
  // The fixture chart (createMatches)

  function Unplayed(id: int, matchType: MatchType, a: int, b: int, c: int, d: int): MatchData {
    MatchData(id, matchType, a, b, c, d, None, None, false, None)
  }

  /**
   * The nine matches of the chart, by roster slot (1-3 women W1-W3,
   * 4-6 men M1-M3): three mixed, then men's and women's doubles alternating.
   */
  function Fixture(): seq<MatchData> {
    [ Unplayed(1, XD, 1, 4, 1, 4),
      Unplayed(2, XD, 2, 5, 2, 5),
      Unplayed(3, XD, 3, 6, 3, 6),
      Unplayed(4, MD, 4, 5, 5, 6),
      Unplayed(5, WD, 1, 2, 2, 3),
      Unplayed(6, MD, 5, 6, 4, 6),
      Unplayed(7, WD, 2, 3, 1, 3),
      Unplayed(8, MD, 4, 6, 4, 5),
      Unplayed(9, WD, 1, 3, 1, 2) ]
  }

  predicate IsWoman(slot: int) { 1 <= slot <= 3 }
  predicate IsMan(slot: int) { 4 <= slot <= 6 }

  /** A pair of roster slots fit for a match of the given type. */
  predicate PairFits(t: MatchType, a: int, b: int) {
    a != b &&
    match t
    case MD => IsMan(a) && IsMan(b)
    case WD => IsWoman(a) && IsWoman(b)
    case XD => (IsWoman(a) && IsMan(b)) || (IsMan(a) && IsWoman(b))
  }

  /** The types of the chart, in match order. */
  function ChartType(i: int): MatchType {
    if i < 3 then XD else if i % 2 == 1 then MD else WD
  }

  /**
   * The fixture has nine unplayed matches with ids 1..9 in order, types
   * XD,XD,XD,MD,WD,MD,WD,MD,WD, and on each side a pair of two different
   * roster slots of the genders its type asks for.
   */
  lemma FixtureShape()
    ensures |Fixture()| == 9
    ensures forall i :: 0 <= i < 9 ==>
      var m := Fixture()[i];
      && m.id == i + 1
      && m.matchType == ChartType(i)
      && m.set1.None? && m.set2.None? && !m.completed && m.matchWinner.None?
      && PairFits(m.matchType, m.team1Player1Id, m.team1Player2Id)
      && PairFits(m.matchType, m.team2Player1Id, m.team2Player2Id)
      && WellFormed(m)
  {
  }

  /** Whether roster slot `p` of `team` plays in match `m`. */
  predicate Plays(m: MatchData, team: Team, p: int) {
    if team == Team1 then m.team1Player1Id == p || m.team1Player2Id == p
    else m.team2Player1Id == p || m.team2Player2Id == p
  }

  /** How many of the matches from position `i` on have slot `p` of `team` on court. */
  function Appearances(ms: seq<MatchData>, i: nat, team: Team, p: int): nat
    decreases |ms| - i
  {
    if i >= |ms| then 0
    else (if Plays(ms[i], team, p) then 1 else 0) + Appearances(ms, i + 1, team, p)
  }

  /** How many of the matches from position `i` on have type `t`. */
  function TypeCount(ms: seq<MatchData>, i: nat, t: MatchType): nat
    decreases |ms| - i
  {
    if i >= |ms| then 0
    else (if ms[i].matchType == t then 1 else 0) + TypeCount(ms, i + 1, t)
  }

  /** The chart is balanced: three matches of each type, and every roster slot of either team plays exactly three matches. */
  lemma FixtureBalanced()
    ensures forall t :: TypeCount(Fixture(), 0, t) == 3
    ensures forall team, p :: 1 <= p <= 6 ==> Appearances(Fixture(), 0, team, p) == 3
  {
  }

  // ---------------------------------------------------------------------
  // One score submission (the part of updateMatchScore after its guard)

  /** How many of the two sets `team` won (`[w1, w2].filter(w => w === team).length`). */
  function SetsTaken(s1: SetScore, s2: SetScore, team: Team): nat {
    (if s1.winner == Some(team) then 1 else 0) + (if s2.winner == Some(team) then 1 else 0)
  }

  /**
   * Replaces set slot `setNumber` (1, anything else meaning 2) with the
   * submitted scores and their winner; once both slots hold a set the match
   * is completed and won by team 1 exactly when it took more sets than team 2.
   */
  function ApplyScore(m: MatchData, setNumber: int, team1Score: int, team2Score: int): MatchData {
    var s := SetScore(team1Score, team2Score, SetWinner(team1Score, team2Score));
    var placed := if setNumber == 1 then m.(set1 := Some(s)) else m.(set2 := Some(s));
    if placed.set1.Some? && placed.set2.Some? then
      var team1Wins := SetsTaken(placed.set1.value, placed.set2.value, Team1);
      var team2Wins := SetsTaken(placed.set1.value, placed.set2.value, Team2);
      placed.(matchWinner := Some(if team1Wins > team2Wins then Team1 else Team2), completed := true)
    else placed
  }

  /**
   * What a valid submission does to a match: only the named set slot is
   * replaced, the fixture fields never change, `completed` is never reset,
   * and once both sets are present the match is completed and won by team 1
   * exactly when team 1 won both sets (a 1-1 split goes to team 2). A
   * well-formed match stays well-formed.
   */
  lemma ApplyScoreOutcome(m: MatchData, setNumber: int, team1Score: int, team2Score: int)
    requires WellFormed(m)
    requires ValidSetScore(team1Score, team2Score)
    ensures var r := ApplyScore(m, setNumber, team1Score, team2Score);
      && SameFixture(r, m)
      && (setNumber == 1 ==> r.set1 == Some(SetScore(team1Score, team2Score, SetWinner(team1Score, team2Score))) && r.set2 == m.set2)
      && (setNumber != 1 ==> r.set2 == Some(SetScore(team1Score, team2Score, SetWinner(team1Score, team2Score))) && r.set1 == m.set1)
      && (m.completed ==> r.completed)
      && (r.completed <==> r.set1.Some? && r.set2.Some?)
      && (r.completed ==>
            (r.matchWinner == Some(Team1) <==>
               r.set1.value.winner == Some(Team1) && r.set2.value.winner == Some(Team1)))
      && (!r.completed ==> r.matchWinner == m.matchWinner)
      && WellFormed(r)
  {
  }

  /** A 1-1 split is credited to team 2; a 2-0 sweep to the sweeping team. */
  lemma ApplyScoreSplitGoesToTeam2()
    ensures ApplyScore(ApplyScore(Unplayed(1, XD, 1, 4, 1, 4), 1, 21, 10), 2, 10, 21).matchWinner == Some(Team2)
    ensures ApplyScore(ApplyScore(Unplayed(1, XD, 1, 4, 1, 4), 1, 10, 21), 2, 21, 10).matchWinner == Some(Team2)
    ensures ApplyScore(ApplyScore(Unplayed(1, XD, 1, 4, 1, 4), 1, 21, 10), 2, 21, 10).matchWinner == Some(Team1)
  {
  }

  /** Submitting the same score for the same set a second time changes nothing. */
  lemma ApplyScoreIdempotent(m: MatchData, setNumber: int, team1Score: int, team2Score: int)
    ensures var once := ApplyScore(m, setNumber, team1Score, team2Score);
      ApplyScore(once, setNumber, team1Score, team2Score) == once
  {
  }

  // ---------------------------------------------------------------------
  // Recount of the aggregates (calculateTournamentStats)

  function Plus(a: Aggregates, b: Aggregates): Aggregates {
    Aggregates(a.team1SetsWon + b.team1SetsWon, a.team2SetsWon + b.team2SetsWon,
               a.team1TotalPoints + b.team1TotalPoints, a.team2TotalPoints + b.team2TotalPoints)
  }

  function Minus(a: Aggregates, b: Aggregates): Aggregates {
    Aggregates(a.team1SetsWon - b.team1SetsWon, a.team2SetsWon - b.team2SetsWon,
               a.team1TotalPoints - b.team1TotalPoints, a.team2TotalPoints - b.team2TotalPoints)
  }

  /** What one set slot adds to the counters: a set won per named winner, and both teams' scores. */
  function SetContribution(s: Option<SetScore>): Aggregates {
    match s
    case None => Zero
    case Some(x) =>
      Aggregates(if x.winner == Some(Team1) then 1 else 0, if x.winner == Some(Team2) then 1 else 0,
                 x.team1Score, x.team2Score)
  }

  function MatchContribution(m: MatchData): Aggregates {
    Plus(SetContribution(m.set1), SetContribution(m.set2))
  }

  /** Adding a match's two set slots one after the other adds the match's contribution. */
  lemma PlusMatch(a: Aggregates, m: MatchData)
    ensures Plus(Plus(a, SetContribution(m.set1)), SetContribution(m.set2)) == Plus(a, MatchContribution(m))
  {
  }

  /** The sum of a sequence of counters, added up left to right. */
  function Total(cs: seq<Aggregates>): Aggregates {
    if cs == [] then Zero else Plus(Total(cs[..|cs| - 1]), cs[|cs| - 1])
  }

  function Contributions(ms: seq<MatchData>): (cs: seq<Aggregates>)
    ensures |cs| == |ms|
    ensures forall i :: 0 <= i < |ms| ==> cs[i] == MatchContribution(ms[i])
  {
    seq(|ms|, i requires 0 <= i < |ms| => MatchContribution(ms[i]))
  }

  /** The counters after folding over `ms` in order, starting from zero. */
  function Tally(ms: seq<MatchData>): Aggregates {
    Total(Contributions(ms))
  }

  /** One step of the fold: the last match's contribution added to the recount of the others. */
  lemma TallyLast(ms: seq<MatchData>)
    requires |ms| > 0
    ensures Tally(ms) == Plus(Tally(ms[..|ms| - 1]), MatchContribution(ms[|ms| - 1]))
  {
    assert Contributions(ms)[..|ms| - 1] == Contributions(ms[..|ms| - 1]);
  }

  /** Tallying one more match of a list adds that match's contribution. */
  lemma TallyPrefix(ms: seq<MatchData>, i: nat)
    requires i < |ms|
    ensures Tally(ms[..i + 1]) == Plus(Tally(ms[..i]), MatchContribution(ms[i]))
  {
    TallyLast(ms[..i + 1]);
    assert ms[..i + 1][..i] == ms[..i];
  }

  /** The winner rule: 9 or more sets and strictly ahead; at 9-9 strictly more points; else none. */
  function TournamentWinner(a: Aggregates): Option<Team> {
    if a.team1SetsWon >= SetsToWin && a.team1SetsWon > a.team2SetsWon then Some(Team1)
    else if a.team2SetsWon >= SetsToWin && a.team2SetsWon > a.team1SetsWon then Some(Team2)
    else if a.team1SetsWon == SetsToWin && a.team2SetsWon == SetsToWin then
      (if a.team1TotalPoints > a.team2TotalPoints then Some(Team1)
       else if a.team2TotalPoints > a.team1TotalPoints then Some(Team2)
       else None)
    else None
  }

  /**
   * The winner rule stated per team: a team wins iff it is strictly ahead on
   * sets with at least 9, or the sets stand 9-9 and it is strictly ahead on
   * points. At most one team wins, and a 9-9 tie on equal points has none.
   */
  lemma TournamentWinnerRule(a: Aggregates)
    ensures TournamentWinner(a) == Some(Team1) <==>
      (a.team1SetsWon >= SetsToWin && a.team1SetsWon > a.team2SetsWon) ||
      (a.team1SetsWon == SetsToWin == a.team2SetsWon && a.team1TotalPoints > a.team2TotalPoints)
    ensures TournamentWinner(a) == Some(Team2) <==>
      (a.team2SetsWon >= SetsToWin && a.team2SetsWon > a.team1SetsWon) ||
      (a.team1SetsWon == SetsToWin == a.team2SetsWon && a.team2TotalPoints > a.team1TotalPoints)
    ensures a.team1SetsWon == SetsToWin == a.team2SetsWon && a.team1TotalPoints == a.team2TotalPoints
      ==> TournamentWinner(a).None?
  {
  }

  function CompletedCount(ms: seq<MatchData>): nat {
    if ms == [] then 0
    else CompletedCount(ms[..|ms| - 1]) + (if ms[|ms| - 1].completed then 1 else 0)
  }

  /** Matches with exactly one of their two sets entered. */
  function HalfScoredCount(ms: seq<MatchData>): nat {
    if ms == [] then 0
    else HalfScoredCount(ms[..|ms| - 1]) + (if ms[|ms| - 1].set1.Some? != ms[|ms| - 1].set2.Some? then 1 else 0)
  }

  function Entered(s: Option<SetScore>): int { if s.Some? then 1 else 0 }

  /** A valid set is won by exactly one team, and each team scored between 0 and 30. */
  lemma SetContributionBounds(s: Option<SetScore>)
    requires s.Some? ==> ValidSet(s.value)
    ensures var c := SetContribution(s);
      && c.team1SetsWon + c.team2SetsWon == Entered(s)
      && 0 <= c.team1SetsWon && 0 <= c.team2SetsWon
      && 0 <= c.team1TotalPoints <= 30 * Entered(s) && 0 <= c.team2TotalPoints <= 30 * Entered(s)
  {
    if s.Some? { assert s.value.winner.Some?; }
  }

  /** How many of a match's two sets are entered. */
  function EnteredSets(m: MatchData): int { Entered(m.set1) + Entered(m.set2) }

  /** What one match with valid sets adds: one set won per entered set, each team at most 30 points per entered set. */
  lemma ValidSetsContribution(m: MatchData)
    requires m.set1.Some? ==> ValidSet(m.set1.value)
    requires m.set2.Some? ==> ValidSet(m.set2.value)
    ensures MatchContribution(m).team1SetsWon + MatchContribution(m).team2SetsWon == EnteredSets(m)
    ensures 0 <= MatchContribution(m).team1SetsWon && 0 <= MatchContribution(m).team2SetsWon
    ensures 0 <= MatchContribution(m).team1TotalPoints <= 30 * EnteredSets(m)
    ensures 0 <= MatchContribution(m).team2TotalPoints <= 30 * EnteredSets(m)
  {
    SetContributionBounds(m.set1);
    SetContributionBounds(m.set2);
  }

  /**
   * Over well-formed matches the sets won by both teams add up to two per
   * completed match plus one per half-scored match; the counters are never
   * negative, and each team's points are at most 30 per entered set.
   */
  lemma {:induction false} TallyCountsSets(ms: seq<MatchData>)
    requires AllWellFormed(ms)
    ensures var a := Tally(ms);
      && a.team1SetsWon + a.team2SetsWon == 2 * CompletedCount(ms) + HalfScoredCount(ms)
      && 0 <= a.team1SetsWon && 0 <= a.team2SetsWon
      && 0 <= a.team1TotalPoints <= 30 * (2 * CompletedCount(ms) + HalfScoredCount(ms))
      && 0 <= a.team2TotalPoints <= 30 * (2 * CompletedCount(ms) + HalfScoredCount(ms))
  {
    if ms != [] {
      var init := ms[..|ms| - 1];
      assert AllWellFormed(init);
      TallyCountsSets(init);
      var m := ms[|ms| - 1];
      assert WellFormed(m);
      ValidSetsContribution(m);
      assert EnteredSets(m) == (if m.completed then 2 else 0) + (if m.set1.Some? != m.set2.Some? then 1 else 0);
      TallyLast(ms);
    }
  }

  /** Every match is unplayed: no set entered anywhere. */
  predicate Unscored(ms: seq<MatchData>) {
    forall i :: 0 <= i < |ms| ==> ms[i].set1.None? && ms[i].set2.None?
  }

  lemma UnscoredContribution(m: MatchData)
    requires m.set1.None? && m.set2.None?
    ensures MatchContribution(m) == Zero
  {
  }

  /** With no set entered the recount is all zero, as the counters of a new tournament are. */
  lemma {:induction false} TallyUnscored(ms: seq<MatchData>)
    requires Unscored(ms)
    ensures Tally(ms) == Zero
  {
    if ms != [] {
      var init := ms[..|ms| - 1];
      assert Unscored(init);
      TallyUnscored(init);
      UnscoredContribution(ms[|ms| - 1]);
      TallyLast(ms);
    }
  }

  lemma {:induction false} TotalReplace(cs: seq<Aggregates>, k: nat, c: Aggregates)
    requires k < |cs|
    ensures Total(cs[k := c]) == Plus(Minus(Total(cs), cs[k]), c)
  {
    var last := |cs| - 1;
    if k == last {
      assert cs[k := c][..last] == cs[..last];
    } else {
      assert cs[k := c][..last] == cs[..last][k := c];
      TotalReplace(cs[..last], k, c);
    }
  }

  /**
   * Recomputing from scratch after one match changed equals adjusting the
   * old counters by that match's old and new contributions.
   */
  lemma TallyReplace(ms: seq<MatchData>, k: nat, m: MatchData)
    requires k < |ms|
    ensures Tally(ms[k := m]) == Plus(Minus(Tally(ms), MatchContribution(ms[k])), MatchContribution(m))
  {
    assert Contributions(ms[k := m]) == Contributions(ms)[k := MatchContribution(m)];
    TotalReplace(Contributions(ms), k, MatchContribution(m));
  }

  /**
   * An identical resubmission: scoring match `i` a second time with the same
   * set and scores leaves the matches, and so their recount, as after the
   * first submission.
   */
  lemma ResubmissionSameTally(ms: seq<MatchData>, i: int, setNumber: int, team1Score: int, team2Score: int)
    requires 0 <= i < |ms|
    ensures var once := ms[i := ApplyScore(ms[i], setNumber, team1Score, team2Score)];
      var twice := once[i := ApplyScore(once[i], setNumber, team1Score, team2Score)];
      twice == once && Tally(twice) == Tally(once)
  {
    ApplyScoreIdempotent(ms[i], setNumber, team1Score, team2Score);
  }

  /** Every match has the same two sets. */
  predicate SameSets(ms: seq<MatchData>, s1: Option<SetScore>, s2: Option<SetScore>) {
    forall i :: 0 <= i < |ms| ==> ms[i].set1 == s1 && ms[i].set2 == s2
  }

  function Scale(a: Aggregates, n: nat): Aggregates {
    Aggregates(n * a.team1SetsWon, n * a.team2SetsWon, n * a.team1TotalPoints, n * a.team2TotalPoints)
  }

  lemma ScaleStep(a: Aggregates, n: nat)
    requires n > 0
    ensures Scale(a, n) == Plus(Scale(a, n - 1), a)
  {
  }

  lemma SameSetsContribution(m: MatchData, s1: Option<SetScore>, s2: Option<SetScore>)
    requires m.set1 == s1 && m.set2 == s2
    ensures MatchContribution(m) == Plus(SetContribution(s1), SetContribution(s2))
  {
  }

  /** When every match has the same two sets, the recount is that match's contribution times the number of matches. */
  lemma {:induction false} TallyUniform(ms: seq<MatchData>, s1: Option<SetScore>, s2: Option<SetScore>)
    requires SameSets(ms, s1, s2)
    ensures Tally(ms) == Scale(Plus(SetContribution(s1), SetContribution(s2)), |ms|)
  {
    if ms != [] {
      var init := ms[..|ms| - 1];
      assert SameSets(init, s1, s2);
      TallyUniform(init, s1, s2);
      SameSetsContribution(ms[|ms| - 1], s1, s2);
      ScaleStep(Plus(SetContribution(s1), SetContribution(s2)), |ms|);
      TallyLast(ms);
    }
  }

  /**
   * The end-to-end scenarios: nine matches all won 21-0, 21-0 by team 1 give
   * 18-0 sets and team 1 the tournament; nine 1-1 splits give 9-9, decided by
   * points when they differ and by nobody when they are equal.
   */
  lemma TallyScenarios(ms: seq<MatchData>)
    requires |ms| == 9
    ensures SameSets(ms, Some(SetScore(21, 0, Some(Team1))), Some(SetScore(21, 0, Some(Team1)))) ==>
      Tally(ms) == Aggregates(18, 0, 378, 0) && TournamentWinner(Tally(ms)) == Some(Team1)
    ensures SameSets(ms, Some(SetScore(21, 0, Some(Team1))), Some(SetScore(19, 21, Some(Team2)))) ==>
      Tally(ms) == Aggregates(9, 9, 360, 189) && TournamentWinner(Tally(ms)) == Some(Team1)
    ensures SameSets(ms, Some(SetScore(21, 0, Some(Team1))), Some(SetScore(0, 21, Some(Team2)))) ==>
      Tally(ms) == Aggregates(9, 9, 189, 189) && TournamentWinner(Tally(ms)).None?
  {
    var sweep := Some(SetScore(21, 0, Some(Team1)));
    if SameSets(ms, sweep, sweep) {
      TallyUniform(ms, sweep, sweep);
    }
    if SameSets(ms, sweep, Some(SetScore(19, 21, Some(Team2)))) {
      TallyUniform(ms, sweep, Some(SetScore(19, 21, Some(Team2))));
    }
    if SameSets(ms, sweep, Some(SetScore(0, 21, Some(Team2)))) {
      TallyUniform(ms, sweep, Some(SetScore(0, 21, Some(Team2))));
    }
  }

  // ---------------------------------------------------------------------
  // Completion (isTournamentComplete)

  predicate AllCompleted(ms: seq<MatchData>) {
    forall i :: 0 <= i < |ms| ==> ms[i].completed
  }

  lemma {:induction false} CompletedCountAll(ms: seq<MatchData>)
    requires AllCompleted(ms) && AllWellFormed(ms)
    ensures CompletedCount(ms) == |ms| && HalfScoredCount(ms) == 0
  {
    if ms != [] {
      var init := ms[..|ms| - 1];
      assert AllCompleted(init) && AllWellFormed(init) by {
        forall i | 0 <= i < |init| ensures init[i].completed && WellFormed(init[i]) { assert init[i] == ms[i]; }
      }
      assert WellFormed(ms[|ms| - 1]);
      CompletedCountAll(init);
    }
  }

  /**
   * The finalisation gate: once all nine well-formed matches are completed,
   * every match has a winner, 18 sets have been won in all, and the
   * tournament has a winner unless the sets stand 9-9 on equal points.
   */
  lemma CompleteTournamentDecided(ms: seq<MatchData>)
    requires |ms| == 9 && AllWellFormed(ms) && AllCompleted(ms)
    ensures forall i :: 0 <= i < |ms| ==> ms[i].matchWinner.Some?
    ensures Tally(ms).team1SetsWon + Tally(ms).team2SetsWon == 18
    ensures TournamentWinner(Tally(ms)).None? <==>
      Tally(ms).team1SetsWon == SetsToWin == Tally(ms).team2SetsWon &&
      Tally(ms).team1TotalPoints == Tally(ms).team2TotalPoints
  {
    CompletedCountAll(ms);
    TallyCountsSets(ms);
  }
}
