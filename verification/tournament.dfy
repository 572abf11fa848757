/**
 * The mutable objects of src/lib/gameLogic.ts and the operations that
 * build and update them: `createMatches`, `createTournament`,
 * `updateMatchScore`, `calculateTournamentStats`, `isTournamentComplete`
 * and `getMatchesByType`.
 *
 * `Match` and `Tournament` are classes because the source updates them in
 * place. `updateMatchScore` makes a shallow copy of the tournament, so the
 * copy and the input share their `Match` objects: the new set is visible
 * through the input as well, while the recomputed counters are written on
 * the copy only.
 */
module GameLogic {
  import opened Wrappers
  import opened ScoreRules
  import opened TournamentSpec
  import opened Text

  class Match {
    const id: int
    const matchType: MatchType
    const team1Player1Id: int
    const team1Player2Id: int
    const team2Player1Id: int
    const team2Player2Id: int
    var set1: Option<SetScore>
    var set2: Option<SetScore>
    var completed: bool
    var matchWinner: Option<Team>

    /** A match of the chart, not yet played. */
    constructor (id: int, matchType: MatchType, team1Player1Id: int, team1Player2Id: int,
                 team2Player1Id: int, team2Player2Id: int)
      ensures View() == Unplayed(id, matchType, team1Player1Id, team1Player2Id, team2Player1Id, team2Player2Id)
    {
      this.id := id;
      this.matchType := matchType;
      this.team1Player1Id := team1Player1Id;
      this.team1Player2Id := team1Player2Id;
      this.team2Player1Id := team2Player1Id;
      this.team2Player2Id := team2Player2Id;
      set1, set2 := None, None;
      completed, matchWinner := false, None;
    }

    /**
     * The in-place part of `updateMatchScore`: the set goes into slot 1 when
     * `setNumber` is 1 and into slot 2 otherwise; once both slots are
     * filled, the match is completed and won by the team that took more of
     * the two sets, Team 2 on a split.
     */
    method RecordSet(setNumber: int, team1Score: int, team2Score: int)
      modifies this
      ensures View() == ApplyScore(old(View()), setNumber, team1Score, team2Score)
    {
      var setWinner := SetWinner(team1Score, team2Score);
      var setScore := SetScore(team1Score, team2Score, setWinner);
      if setNumber == 1 {
        set1 := Some(setScore);
      } else {
        set2 := Some(setScore);
      }
      if set1.Some? && set2.Some? {
        var team1Wins := SetsTaken(set1.value, set2.value, Team1);
        var team2Wins := SetsTaken(set1.value, set2.value, Team2);
        matchWinner := if team1Wins > team2Wins then Some(Team1) else Some(Team2);
        completed := true;
      }
    }

    /** The current field values. */
    function View(): MatchData
      reads this
    {
      MatchData(id, matchType, team1Player1Id, team1Player2Id, team2Player1Id, team2Player2Id,
                set1, set2, completed, matchWinner)
    }
  }

  /** The current field values of every match, in order. */
  function Views(ms: seq<Match>): (vs: seq<MatchData>)
    reads ms
    ensures |vs| == |ms|
    ensures forall i :: 0 <= i < |ms| ==> vs[i] == ms[i].View()
  {
    seq(|ms|, i requires 0 <= i < |ms| reads ms => ms[i].View())
  }

  class Tournament {
    const id: string
    const accessCode: string
    const date: string
    const team1Name: string
    const team2Name: string
    const team1Players: seq<Player>
    const team2Players: seq<Player>
    /** The match list; the engine never replaces it, only the matches in it. */
    const matches: seq<Match>
    var team1SetsWon: int
    var team2SetsWon: int
    var team1TotalPoints: int
    var team2TotalPoints: int
    var tournamentWinner: Option<Team>
    var isFinalized: bool
    const createdAt: int

    constructor (id: string, accessCode: string, date: string, team1Name: string, team2Name: string,
                 team1Players: seq<Player>, team2Players: seq<Player>, matches: seq<Match>,
                 counters: Aggregates, tournamentWinner: Option<Team>, isFinalized: bool, createdAt: int)
      ensures this.id == id && this.accessCode == accessCode && this.date == date
      ensures this.team1Name == team1Name && this.team2Name == team2Name
      ensures this.team1Players == team1Players && this.team2Players == team2Players
      ensures this.matches == matches && this.createdAt == createdAt
      ensures Counters() == counters && this.tournamentWinner == tournamentWinner
      ensures this.isFinalized == isFinalized
    {
      this.id, this.accessCode, this.date := id, accessCode, date;
      this.team1Name, this.team2Name := team1Name, team2Name;
      this.team1Players, this.team2Players := team1Players, team2Players;
      this.matches, this.createdAt := matches, createdAt;
      team1SetsWon, team2SetsWon := counters.team1SetsWon, counters.team2SetsWon;
      team1TotalPoints, team2TotalPoints := counters.team1TotalPoints, counters.team2TotalPoints;
      this.tournamentWinner, this.isFinalized := tournamentWinner, isFinalized;
    }

    /** `{ ...t }`: a new object with every field of `t`, sharing `t`'s match list. */
    constructor Copy(t: Tournament)
      ensures SameRecord(t) && matches == t.matches
      ensures Counters() == t.Counters() && tournamentWinner == t.tournamentWinner
      ensures isFinalized == t.isFinalized
    {
      id, accessCode, date := t.id, t.accessCode, t.date;
      team1Name, team2Name := t.team1Name, t.team2Name;
      team1Players, team2Players := t.team1Players, t.team2Players;
      matches, createdAt := t.matches, t.createdAt;
      team1SetsWon, team2SetsWon := t.team1SetsWon, t.team2SetsWon;
      team1TotalPoints, team2TotalPoints := t.team1TotalPoints, t.team2TotalPoints;
      tournamentWinner, isFinalized := t.tournamentWinner, t.isFinalized;
    }

    /** The four stored counters. */
    function Counters(): Aggregates
      reads this
    {
      Aggregates(team1SetsWon, team2SetsWon, team1TotalPoints, team2TotalPoints)
    }

    /** Same identity, names, rosters and creation data as `t`. */
    predicate SameRecord(t: Tournament) {
      id == t.id && accessCode == t.accessCode && date == t.date &&
      team1Name == t.team1Name && team2Name == t.team2Name &&
      team1Players == t.team1Players && team2Players == t.team2Players &&
      createdAt == t.createdAt
    }
  }

  // -----------------------------------------------------------------------
  // createMatches / createTournament

  /**
   * `createMatches`: nine new match objects laid out as the chart says,
   * unplayed, appended in chart order with ids from a running counter
   * (so 1 to 9).
   */
  method CreateMatches() returns (matches: seq<Match>)
    ensures |matches| == 9
    ensures forall i :: 0 <= i < 9 ==> fresh(matches[i]) && matches[i].View() == Fixture()[i]
  {
    matches := [];
    var matchId := 1;
    var m1 := new Match(matchId, XD, 1, 4, 1, 4);   // W1/M1 vs W1/M1
    matchId, matches := matchId + 1, matches + [m1];
    var m2 := new Match(matchId, XD, 2, 5, 2, 5);   // W2/M2 vs W2/M2
    matchId, matches := matchId + 1, matches + [m2];
    var m3 := new Match(matchId, XD, 3, 6, 3, 6);   // W3/M3 vs W3/M3
    matchId, matches := matchId + 1, matches + [m3];
    var m4 := new Match(matchId, MD, 4, 5, 5, 6);   // M1/M2 vs M2/M3
    matchId, matches := matchId + 1, matches + [m4];
    var m5 := new Match(matchId, WD, 1, 2, 2, 3);   // W1/W2 vs W2/W3
    matchId, matches := matchId + 1, matches + [m5];
    var m6 := new Match(matchId, MD, 5, 6, 4, 6);   // M2/M3 vs M1/M3
    matchId, matches := matchId + 1, matches + [m6];
    var m7 := new Match(matchId, WD, 2, 3, 1, 3);   // W2/W3 vs W1/W3
    matchId, matches := matchId + 1, matches + [m7];
    var m8 := new Match(matchId, MD, 4, 6, 4, 5);   // M1/M3 vs M1/M2
    matchId, matches := matchId + 1, matches + [m8];
    var m9 := new Match(matchId, WD, 1, 3, 1, 2);   // W1/W3 vs W1/W2
    matchId, matches := matchId + 1, matches + [m9];
  }

  /** The roster built from a team's names: slot i gets id i + 1, the trimmed name, and is a woman for the first three slots. */
  function Roster(names: seq<string>, team: Team): (r: seq<Player>)
    ensures |r| == |names|
    ensures forall i :: 0 <= i < |r| ==>
      r[i].id == i + 1 && r[i].name == Trim(names[i]) && r[i].teamNumber == team &&
      (r[i].gender == Woman <==> i < 3)
  {
    seq(|names|, i requires 0 <= i < |names| =>
      Player(i + 1, Trim(names[i]), if i < 3 then Woman else Man, team))
  }

  /** Whether `roster` has a player with id `p` whose gender is the one the chart's slot numbering gives it. */
  predicate InRoster(roster: seq<Player>, p: int) {
    exists k :: 0 <= k < |roster| && roster[k].id == p &&
      (roster[k].gender == Woman <==> IsWoman(p)) && (roster[k].gender == Man <==> IsMan(p))
  }

  /**
   * Every player id the chart uses names a player of the right team's
   * six-name roster, and that player's gender is the one the match type
   * needs: two men in men's doubles, two women in women's doubles, one of
   * each in mixed doubles.
   */
  lemma FixtureUsesRoster(names1: seq<string>, names2: seq<string>)
    requires |names1| == 6 && |names2| == 6
    ensures forall i :: 0 <= i < 9 ==>
      var m := Fixture()[i];
      InRoster(Roster(names1, Team1), m.team1Player1Id) && InRoster(Roster(names1, Team1), m.team1Player2Id) &&
      InRoster(Roster(names2, Team2), m.team2Player1Id) && InRoster(Roster(names2, Team2), m.team2Player2Id)
  {
    FixtureShape();
    var r1, r2 := Roster(names1, Team1), Roster(names2, Team2);
    forall p | 1 <= p <= 6
      ensures InRoster(r1, p) && InRoster(r2, p)
    {
      assert r1[p - 1].id == p && r2[p - 1].id == p;
    }
  }

  /**
   * `createTournament`: the rosters from the names, the chart's nine
   * matches, counters at zero, no winner, not finalized. The id, the date
   * used when none is given (today in Los Angeles) and the creation time
   * are supplied by the caller.
   */
  method CreateTournament(id: string, accessCode: string, team1Name: string, team2Name: string,
                          team1PlayerNames: seq<string>, team2PlayerNames: seq<string>,
                          date: Option<string>, today: string, createdAt: int)
    returns (t: Tournament)
    ensures fresh(t) && t.id == id && t.accessCode == accessCode && t.createdAt == createdAt
    ensures t.team1Name == team1Name && t.team2Name == team2Name
    ensures t.date == if date.Some? && date.value != "" then date.value else today
    ensures t.team1Players == Roster(team1PlayerNames, Team1)
    ensures t.team2Players == Roster(team2PlayerNames, Team2)
    ensures |t.matches| == 9 && Views(t.matches) == Fixture()
    ensures forall i :: 0 <= i < 9 ==> fresh(t.matches[i])
    ensures t.Counters() == Zero == Tally(Views(t.matches))
    ensures t.tournamentWinner.None? && !t.isFinalized
  {
    var team1Players := Roster(team1PlayerNames, Team1);
    var team2Players := Roster(team2PlayerNames, Team2);
    var matches := CreateMatches();
    var day := if date.Some? && date.value != "" then date.value else today;
    t := new Tournament(id, accessCode, day, team1Name, team2Name, team1Players, team2Players,
                        matches, Zero, None, false, createdAt);
    assert Views(t.matches) == Fixture();
    FixtureShape();
    TallyUnscored(Fixture());
  }

  // -----------------------------------------------------------------------
  // updateMatchScore / calculateTournamentStats

  /** `matches.find(m => m.id === matchId)`, as a position: the first match with that id, if any. */
  function FindMatch(ms: seq<Match>, matchId: int): (k: Option<nat>)
    ensures k.Some? ==> k.value < |ms| && ms[k.value].id == matchId
    ensures k.Some? ==> forall j :: 0 <= j < k.value ==> ms[j].id != matchId
    ensures k.None? <==> forall j :: 0 <= j < |ms| ==> ms[j].id != matchId
  {
    if ms == [] then None
    else if ms[0].id == matchId then Some(0)
    else match FindMatch(ms[1..], matchId)
      case None => None
      case Some(k) => Some(k + 1)
  }

  /**
   * The body the stats fold runs for each of a match's two set slots: an
   * entered set adds one to its winner's set count and its two scores to
   * the teams' point totals; an empty slot adds nothing.
   */
  method CountSet(slot: Option<SetScore>, totals: Aggregates) returns (next: Aggregates)
    ensures next == Plus(totals, SetContribution(slot))
  {
    next := totals;
    if slot.Some? {
      if slot.value.winner == Some(Team1) { next := next.(team1SetsWon := next.team1SetsWon + 1); }
      if slot.value.winner == Some(Team2) { next := next.(team2SetsWon := next.team2SetsWon + 1); }
      next := next.(team1TotalPoints := next.team1TotalPoints + slot.value.team1Score,
                    team2TotalPoints := next.team2TotalPoints + slot.value.team2Score);
    }
  }

  /**
   * The fold of `calculateTournamentStats` over the match list: the sets
   * each team won and both teams' points over every entered set.
   */
  method CountMatches(matches: seq<Match>) returns (totals: Aggregates)
    ensures totals == Tally(Views(matches))
  {
    totals := Zero;
    ghost var views := Views(matches);
    for i := 0 to |matches|
      invariant totals == Tally(views[..i])
    {
      var set1, set2 := matches[i].set1, matches[i].set2;
      assert set1 == views[i].set1 && set2 == views[i].set2;
      TallyPrefix(views, i);
      PlusMatch(totals, views[i]);
      totals := CountSet(set1, totals);
      totals := CountSet(set2, totals);
    }
    assert views[..|matches|] == views;
  }

  /**
   * The winner decision of `calculateTournamentStats`: a team with at least
   * nine sets and more sets than the other wins; at nine sets all, the
   * team with more points wins; anything else leaves the winner unset.
   */
  method DecideWinner(totals: Aggregates) returns (winner: Option<Team>)
    ensures winner == TournamentWinner(totals)
  {
    if totals.team1SetsWon >= SetsToWin && totals.team1SetsWon > totals.team2SetsWon {
      winner := Some(Team1);
    } else if totals.team2SetsWon >= SetsToWin && totals.team2SetsWon > totals.team1SetsWon {
      winner := Some(Team2);
    } else if totals.team1SetsWon == SetsToWin && totals.team2SetsWon == SetsToWin {
      if totals.team1TotalPoints > totals.team2TotalPoints {
        winner := Some(Team1);
      } else if totals.team2TotalPoints > totals.team1TotalPoints {
        winner := Some(Team2);
      } else {
        winner := None;
      }
    } else {
      winner := None;
    }
  }

  /**
   * `calculateTournamentStats`: recounts the four counters from the
   * matches, stores them on the tournament whatever they were before, and
   * applies the winner rule to them. Matches are left alone.
   */
  method CalculateTournamentStats(tournament: Tournament) returns (r: Tournament)
    modifies tournament
    ensures r == tournament && r.isFinalized == old(tournament.isFinalized)
    ensures r.Counters() == Tally(Views(r.matches))
    ensures r.tournamentWinner == TournamentWinner(r.Counters())
  {
    var totals := CountMatches(tournament.matches);
    var winner := DecideWinner(totals);
    tournament.team1SetsWon := totals.team1SetsWon;
    tournament.team2SetsWon := totals.team2SetsWon;
    tournament.team1TotalPoints := totals.team1TotalPoints;
    tournament.team2TotalPoints := totals.team2TotalPoints;
    tournament.tournamentWinner := winner;
    assert tournament.Counters() == totals;
    assert Views(tournament.matches) == old(Views(tournament.matches));
    r := tournament;
  }

  /**
   * `updateMatchScore`. With no match of that id, or scores the library
   * rule rejects, the input tournament itself is returned and no match
   * changes. Otherwise the first match with that id gets the new set in the
   * named slot (and, with both slots filled, its winner and `completed`),
   * every other match object is left alone, and a fresh shallow copy of the
   * tournament carrying the recounted counters and winner is returned. The
   * copy shares the match list with the input, whose own counters are not
   * touched.
   */
  method UpdateMatchScore(tournament: Tournament, matchId: int, setNumber: int,
                          team1Score: int, team2Score: int)
    returns (r: Tournament)
    modifies tournament.matches
    ensures unchanged(tournament)
    ensures FindMatch(tournament.matches, matchId).None? || !ValidSetScore(team1Score, team2Score) ==>
      r == tournament && Views(tournament.matches) == old(Views(tournament.matches))
    ensures FindMatch(tournament.matches, matchId).Some? && ValidSetScore(team1Score, team2Score) ==>
      var ms := tournament.matches;
      var found := ms[FindMatch(ms, matchId).value];
      && fresh(r) && r.matches == ms && r.SameRecord(tournament) && r.isFinalized == tournament.isFinalized
      && found.View() == ApplyScore(old(found.View()), setNumber, team1Score, team2Score)
      && (forall i :: 0 <= i < |ms| && ms[i] != found ==> ms[i].View() == old(ms[i].View()))
      && r.Counters() == Tally(Views(ms))
      && r.tournamentWinner == TournamentWinner(r.Counters())
  {
    var updated := new Tournament.Copy(tournament);
    var k := FindMatch(updated.matches, matchId);
    if k.None? || !ValidSetScore(team1Score, team2Score) {
      return tournament;
    }
    var m := updated.matches[k.value];
    m.RecordSet(setNumber, team1Score, team2Score);
    r := CalculateTournamentStats(updated);
  }

  // -----------------------------------------------------------------------
  // isTournamentComplete / getMatchesByType

  /** `isTournamentComplete`: every match is marked completed. */
  function IsTournamentComplete(tournament: Tournament): (r: bool)
    reads tournament.matches
    ensures r <==> AllCompleted(Views(tournament.matches))
  {
    forall i :: 0 <= i < |tournament.matches| ==> tournament.matches[i].completed
  }

  /** The matches of one type from position `from` on, in their order. */
  function MatchesOfType(ms: seq<Match>, from: nat, matchType: MatchType): seq<Match>
    reads ms
    decreases |ms| - from
  {
    if from >= |ms| then []
    else (if ms[from].matchType == matchType then [ms[from]] else []) + MatchesOfType(ms, from + 1, matchType)
  }

  /**
   * `r` picks matches of `ms` at positions `idx`, all at or after `from`,
   * in strictly increasing order: `r` is an ordered sub-list of `ms[from..]`.
   */
  ghost predicate PicksInOrder(r: seq<Match>, ms: seq<Match>, from: nat, idx: seq<int>) {
    && |idx| == |r|
    && (forall k :: 0 <= k < |r| ==> from <= idx[k] < |ms| && r[k] == ms[idx[k]])
    && (forall k, l :: 0 <= k < l < |idx| ==> idx[k] < idx[l])
  }

  /**
   * `MatchesOfType` returns every match of the type from `from` on, and
   * nothing else: as many as the type's count, each of the type, and each
   * such match of `ms` among them.
   */
  lemma {:induction false} MatchesOfTypeExactly(ms: seq<Match>, from: nat, matchType: MatchType)
    decreases |ms| - from
    ensures var r := MatchesOfType(ms, from, matchType);
      && |r| == TypeCount(Views(ms), from, matchType)
      && (forall k :: 0 <= k < |r| ==> r[k].matchType == matchType)
      && (forall j :: from <= j < |ms| && ms[j].matchType == matchType ==> ms[j] in r)
  {
    if from < |ms| {
      MatchesOfTypeExactly(ms, from + 1, matchType);
      var rest := MatchesOfType(ms, from + 1, matchType);
      if ms[from].matchType == matchType {
        assert MatchesOfType(ms, from, matchType) == [ms[from]] + rest;
      } else {
        assert MatchesOfType(ms, from, matchType) == rest;
      }
    }
  }

  /** `MatchesOfType` keeps the list's order. */
  lemma {:induction false} MatchesOfTypeInOrder(ms: seq<Match>, from: nat, matchType: MatchType)
    decreases |ms| - from
    ensures exists idx :: PicksInOrder(MatchesOfType(ms, from, matchType), ms, from, idx)
  {
    var r := MatchesOfType(ms, from, matchType);
    if from >= |ms| {
      assert PicksInOrder(r, ms, from, []);
    } else {
      MatchesOfTypeInOrder(ms, from + 1, matchType);
      var rest := MatchesOfType(ms, from + 1, matchType);
      var tail :| PicksInOrder(rest, ms, from + 1, tail);
      if ms[from].matchType == matchType {
        var idx := [from as int] + tail;
        assert r == [ms[from]] + rest;
        assert PicksInOrder(r, ms, from, idx) by {
          forall k | 0 <= k < |r|
            ensures from <= idx[k] < |ms| && r[k] == ms[idx[k]]
          {
            if k > 0 {
              assert r[k] == rest[k - 1] && idx[k] == tail[k - 1];
            }
          }
        }
      } else {
        assert r == rest;
        assert PicksInOrder(r, ms, from, tail);
      }
    }
  }

  /**
   * `getMatchesByType`: the tournament's matches of one type, in their
   * order.
   */
  function GetMatchesByType(tournament: Tournament, matchType: MatchType): (r: seq<Match>)
    reads tournament.matches
    ensures forall k :: 0 <= k < |r| ==> r[k] in tournament.matches && r[k].matchType == matchType
    ensures forall j :: 0 <= j < |tournament.matches| && tournament.matches[j].matchType == matchType ==>
      tournament.matches[j] in r
    ensures |r| == TypeCount(Views(tournament.matches), 0, matchType)
    ensures exists idx :: PicksInOrder(r, tournament.matches, 0, idx)
  {
    MatchesOfTypeExactly(tournament.matches, 0, matchType);
    MatchesOfTypeInOrder(tournament.matches, 0, matchType);
    var r := MatchesOfType(tournament.matches, 0, matchType);
    assert forall k :: 0 <= k < |r| ==> r[k] in tournament.matches by {
      var idx :| PicksInOrder(r, tournament.matches, 0, idx);
    }
    MatchesOfType(tournament.matches, 0, matchType)
  }

  /** A tournament laid out by the chart has three matches of each type. */
  lemma ChartMatchesByType(tournament: Tournament, matchType: MatchType)
    requires Views(tournament.matches) == Fixture()
    ensures |GetMatchesByType(tournament, matchType)| == 3
  {
    FixtureBalanced();
  }
}
