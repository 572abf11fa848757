/**
 * The tournament-creation form (src/app/create-tournament/page.tsx): the
 * ordered checks its `handleSubmit` runs before posting, the live duplicate
 * warning of `checkDuplicates`, and the two roster-slot update handlers.
 *
 * Player names are compared after `trim` and `toLowerCase` (`Normalize`).
 * The request and the page navigation are recorded in the form's state;
 * what the server answers is a parameter.
 */
module CreateTournamentForm {
  import opened Wrappers
  import opened Text

  /** Team A (team 1) or Team B (team 2), as the messages name them. */
  datatype Side = TeamA | TeamB

  /** A roster slot's label: W1..W3 for the women's slots, M1..M3 for the men's. */
  datatype SlotLabel = W(n: int) | M(n: int)

  /** The label of slot `i`: women's slots first, then men's, each numbered from 1. */
  function Label(i: int): (l: SlotLabel)
    ensures 0 <= i < 6 ==> 1 <= l.n <= 3
    ensures l.W? <==> i < 3
    ensures 0 <= i < 3 ==> l == W(i + 1)
    ensures 3 <= i < 6 ==> l == M(i - 2)
  {
    if i < 3 then W(i + 1) else M(i - 2)
  }

  /** The six slots have six different labels. */
  lemma LabelInjective(i: int, j: int)
    requires 0 <= i < 6 && 0 <= j < 6 && i != j
    ensures Label(i) != Label(j)
  {
  }

  /** The errors the form shows. */
  datatype FormError =
    | AccessCodeRequired
    | TeamNamesRequired
    | MissingPlayer(side: Side, slotLabel: SlotLabel)
    | TeamADuplicates
    | TeamBDuplicates
    | SamePlayerOnBothTeams
    | RequestFailed(message: string)

  // -----------------------------------------------------------------------
  // Duplicate detection: `names.filter((n, i) => names.indexOf(n) !== i)`

  /** `indexOf`: the first position of `x` in `s`, or -1. */
  function IndexOf(s: seq<string>, x: string): int {
    if s == [] then -1
    else if s[0] == x then 0
    else
      var k := IndexOf(s[1..], x);
      if k == -1 then -1 else k + 1
  }

  /** `indexOf` answers -1 exactly for an absent value, and otherwise the position of its first occurrence. */
  lemma {:induction false} IndexOfSpec(s: seq<string>, x: string)
    ensures var r := IndexOf(s, x);
      && -1 <= r < |s|
      && (r == -1 <==> x !in s)
      && (0 <= r ==> s[r] == x && x !in s[..r])
  {
    if s != [] && s[0] != x {
      IndexOfSpec(s[1..], x);
      var k := IndexOf(s[1..], x);
      assert k >= 0 ==> s[1..][..k] == s[1..k + 1];
    }
  }

  /** The entries from position `from` on that are not the first occurrence of their value. */
  function DuplicatesFrom(s: seq<string>, from: nat): seq<string>
    decreases |s| - from
  {
    if from >= |s| then []
    else (if IndexOf(s, s[from]) != from then [s[from]] else []) + DuplicatesFrom(s, from + 1)
  }

  /** The list of duplicate names the form computes. */
  function Duplicates(s: seq<string>): seq<string> {
    DuplicatesFrom(s, 0)
  }

  /** Every reported duplicate is one of the names, and a repeated one. */
  lemma {:induction false} DuplicatesFromSound(s: seq<string>, from: nat)
    decreases |s| - from
    ensures forall x :: x in DuplicatesFrom(s, from) ==> exists i, j :: 0 <= i < j < |s| && s[i] == x && s[j] == x
  {
    if from < |s| {
      DuplicatesFromSound(s, from + 1);
      if IndexOf(s, s[from]) != from {
        IndexOfSpec(s, s[from]);
        var i := IndexOf(s, s[from]);
        assert 0 <= i < from < |s| && s[i] == s[from];
      }
    }
  }

  /** Some value occurs at two different positions. */
  predicate HasDuplicate(s: seq<string>) {
    exists i, j :: 0 <= i < j < |s| && s[i] == s[j]
  }

  lemma {:induction false} DuplicatesFromNonEmpty(s: seq<string>, from: nat)
    decreases |s| - from
    ensures |DuplicatesFrom(s, from)| > 0 <==> exists j :: from <= j < |s| && IndexOf(s, s[j]) != j
  {
    if from < |s| {
      DuplicatesFromNonEmpty(s, from + 1);
    }
  }

  /** The duplicate list is non-empty exactly when some name occurs twice. */
  lemma DuplicatesExactly(s: seq<string>)
    ensures |Duplicates(s)| > 0 <==> HasDuplicate(s)
  {
    DuplicatesFromNonEmpty(s, 0);
    if HasDuplicate(s) {
      var i, j :| 0 <= i < j < |s| && s[i] == s[j];
      assert s[j] in s[..j];
      IndexOfSpec(s, s[j]);
      assert IndexOf(s, s[j]) != j;
    }
    if |Duplicates(s)| > 0 {
      var j :| 0 <= j < |s| && IndexOf(s, s[j]) != j;
      IndexOfSpec(s, s[j]);
      var i := IndexOf(s, s[j]);
      assert 0 <= i && i != j && s[i] == s[j];
      assert 0 <= i < j < |s| && s[i] == s[j];
    }
  }

  // -----------------------------------------------------------------------
  // Normalised names and the checks on them

  /** `players.map(p => p.trim().toLowerCase())`. */
  function Normalized(players: seq<string>): (r: seq<string>)
    ensures |r| == |players|
    ensures forall i :: 0 <= i < |players| ==> r[i] == Normalize(players[i])
  {
    seq(|players|, i requires 0 <= i < |players| => Normalize(players[i]))
  }

  /** `a.find(name => b.includes(name))`: the first name of `a` that also occurs in `b`. */
  function FindShared(a: seq<string>, b: seq<string>): Option<string> {
    if a == [] then None
    else if a[0] in b then Some(a[0])
    else FindShared(a[1..], b)
  }

  /** `find` fails exactly when no name of `a` is in `b`, and otherwise returns the first one that is. */
  lemma {:induction false} FindSharedSpec(a: seq<string>, b: seq<string>)
    ensures var r := FindShared(a, b);
      && (r.None? <==> forall i :: 0 <= i < |a| ==> a[i] !in b)
      && (r.Some? ==> r.value in b && exists i :: 0 <= i < |a| && a[i] == r.value && forall k :: 0 <= k < i ==> a[k] !in b)
  {
    if a != [] && a[0] !in b {
      FindSharedSpec(a[1..], b);
      var r := FindShared(a[1..], b);
      if r.Some? {
        var i :| 0 <= i < |a[1..]| && a[1..][i] == r.value && forall k :: 0 <= k < i ==> a[1..][k] !in b;
        assert a[i + 1] == r.value;
        assert forall k :: 0 < k < i + 1 ==> a[k] == a[1..][k - 1];
      }
    }
  }

  /**
   * The cross-team check fires when the name `find` returns is truthy, that
   * is, found and not the empty string.
   */
  predicate CrossTeamClash(a: seq<string>, b: seq<string>) {
    var r := FindShared(a, b);
    r.Some? && r.value != ""
  }

  /** With no empty name in Team A's list, the cross-team check fires exactly when the lists share a name. */
  lemma CrossTeamClashExactly(a: seq<string>, b: seq<string>)
    requires forall i :: 0 <= i < |a| ==> a[i] != ""
    ensures CrossTeamClash(a, b) <==> exists i, j :: 0 <= i < |a| && 0 <= j < |b| && a[i] == b[j]
  {
    FindSharedSpec(a, b);
    if CrossTeamClash(a, b) {
      var i :| 0 <= i < |a| && a[i] == FindShared(a, b).value;
      var j :| 0 <= j < |b| && b[j] == a[i];
    }
  }

  /** `players[i]`, with a missing entry read as the empty string. */
  function Slot(players: seq<string>, i: int): string {
    if 0 <= i < |players| then players[i] else ""
  }

  /** Every slot from `from` to 5 holds a name on both teams. */
  predicate FilledFrom(p1: seq<string>, p2: seq<string>, from: int) {
    forall k :: from <= k < 6 ==> !Blank(Slot(p1, k)) && !Blank(Slot(p2, k))
  }

  /**
   * The slot check of the loop over i = 0..5: the first blank slot, Team A
   * before Team B at the same index.
   */
  function FirstEmptySlot(p1: seq<string>, p2: seq<string>, from: nat): Option<FormError>
    decreases 6 - from
  {
    if from >= 6 then None
    else if Blank(Slot(p1, from)) then Some(MissingPlayer(TeamA, Label(from)))
    else if Blank(Slot(p2, from)) then Some(MissingPlayer(TeamB, Label(from)))
    else FirstEmptySlot(p1, p2, from + 1)
  }

  /** The slot check passes exactly when every slot is filled, and otherwise reports a missing player. */
  lemma {:induction false} FirstEmptySlotSpec(p1: seq<string>, p2: seq<string>, from: nat)
    decreases 6 - from
    ensures var r := FirstEmptySlot(p1, p2, from);
      (r.None? <==> FilledFrom(p1, p2, from)) && (r.Some? ==> r.value.MissingPlayer?)
  {
    if from < 6 && !Blank(Slot(p1, from)) && !Blank(Slot(p2, from)) {
      FirstEmptySlotSpec(p1, p2, from + 1);
    }
  }

  /**
   * The slot reported is the first blank one: when every slot before `k`
   * is filled on both teams, a blank Team A slot `k` is reported with its
   * label, and failing that a blank Team B slot `k`.
   */
  lemma {:induction false} FirstEmptySlotAt(p1: seq<string>, p2: seq<string>, from: nat, k: nat)
    requires from <= k <= 6
    requires forall k' :: from <= k' < k ==> !Blank(Slot(p1, k')) && !Blank(Slot(p2, k'))
    ensures FirstEmptySlot(p1, p2, from) == FirstEmptySlot(p1, p2, k)
    ensures k < 6 && Blank(Slot(p1, k)) ==> FirstEmptySlot(p1, p2, from) == Some(MissingPlayer(TeamA, Label(k)))
    ensures k < 6 && !Blank(Slot(p1, k)) && Blank(Slot(p2, k)) ==>
      FirstEmptySlot(p1, p2, from) == Some(MissingPlayer(TeamB, Label(k)))
    decreases k - from
  {
    if from < k {
      FirstEmptySlotAt(p1, p2, from + 1, k);
    }
  }

  /**
   * The validation chain of `handleSubmit`, in its order: access code, team
   * names, player slots, Team A duplicates, Team B duplicates, cross-team
   * duplicates. None when every check passes.
   */
  function Validate(accessCode: string, team1Name: string, team2Name: string,
                    team1Players: seq<string>, team2Players: seq<string>): (r: Option<FormError>)
    ensures r.Some? ==> !r.value.RequestFailed?
  {
    FirstEmptySlotSpec(team1Players, team2Players, 0);
    if Blank(accessCode) then Some(AccessCodeRequired)
    else if Blank(team1Name) || Blank(team2Name) then Some(TeamNamesRequired)
    else if FirstEmptySlot(team1Players, team2Players, 0).Some? then FirstEmptySlot(team1Players, team2Players, 0)
    else
    var team1Names, team2Names := Normalized(team1Players), Normalized(team2Players);
    if |Duplicates(team1Names)| > 0 then Some(TeamADuplicates)
    else if |Duplicates(team2Names)| > 0 then Some(TeamBDuplicates)
    else if CrossTeamClash(team1Names, team2Names) then Some(SamePlayerOnBothTeams)
    else None
  }

  /**
   * Each error is raised exactly when every earlier check passed and its
   * own check fails; no error at all exactly when every check passes.
   */
  lemma ValidateOrder(accessCode: string, team1Name: string, team2Name: string,
                      team1Players: seq<string>, team2Players: seq<string>)
    ensures var r := Validate(accessCode, team1Name, team2Name, team1Players, team2Players);
      var n1, n2 := Normalized(team1Players), Normalized(team2Players);
      && (r == Some(AccessCodeRequired) <==> Blank(accessCode))
      && (r == Some(TeamNamesRequired) <==> !Blank(accessCode) && (Blank(team1Name) || Blank(team2Name)))
      && (r.Some? && r.value.MissingPlayer? <==>
            !Blank(accessCode) && !Blank(team1Name) && !Blank(team2Name) && !FilledFrom(team1Players, team2Players, 0))
      && (r == Some(TeamADuplicates) <==>
            !Blank(accessCode) && !Blank(team1Name) && !Blank(team2Name) && FilledFrom(team1Players, team2Players, 0) &&
            HasDuplicate(n1))
      && (r == Some(TeamBDuplicates) <==>
            !Blank(accessCode) && !Blank(team1Name) && !Blank(team2Name) && FilledFrom(team1Players, team2Players, 0) &&
            !HasDuplicate(n1) && HasDuplicate(n2))
      && (r == Some(SamePlayerOnBothTeams) <==>
            !Blank(accessCode) && !Blank(team1Name) && !Blank(team2Name) && FilledFrom(team1Players, team2Players, 0) &&
            !HasDuplicate(n1) && !HasDuplicate(n2) && CrossTeamClash(n1, n2))
      && (r.None? <==>
            !Blank(accessCode) && !Blank(team1Name) && !Blank(team2Name) && FilledFrom(team1Players, team2Players, 0) &&
            !HasDuplicate(n1) && !HasDuplicate(n2) && !CrossTeamClash(n1, n2))
  {
    FirstEmptySlotSpec(team1Players, team2Players, 0);
    DuplicatesExactly(Normalized(team1Players));
    DuplicatesExactly(Normalized(team2Players));
  }

  /** The whole chain passes exactly when each of its checks passes. */
  lemma ValidateNone(accessCode: string, team1Name: string, team2Name: string,
                     team1Players: seq<string>, team2Players: seq<string>)
    ensures Validate(accessCode, team1Name, team2Name, team1Players, team2Players).None? <==>
      !Blank(accessCode) && !Blank(team1Name) && !Blank(team2Name) && FilledFrom(team1Players, team2Players, 0) &&
      !HasDuplicate(Normalized(team1Players)) && !HasDuplicate(Normalized(team2Players)) &&
      !CrossTeamClash(Normalized(team1Players), Normalized(team2Players))
  {
    FirstEmptySlotSpec(team1Players, team2Players, 0);
    DuplicatesExactly(Normalized(team1Players));
    DuplicatesExactly(Normalized(team2Players));
  }

  /** On six-slot rosters, the slot check passes exactly when no slot is blank. */
  lemma FilledExactly(p1: seq<string>, p2: seq<string>)
    requires |p1| == 6 && |p2| == 6
    ensures FilledFrom(p1, p2, 0) <==> forall k :: 0 <= k < 6 ==> !Blank(p1[k]) && !Blank(p2[k])
  {
    assert forall k :: 0 <= k < 6 ==> Slot(p1, k) == p1[k] && Slot(p2, k) == p2[k];
  }

  /** With every slot filled, the cross-team check fires exactly when a normalised name is on both teams. */
  lemma ClashExactly(p1: seq<string>, p2: seq<string>)
    requires |p1| == 6 && |p2| == 6 && FilledFrom(p1, p2, 0)
    ensures CrossTeamClash(Normalized(p1), Normalized(p2)) <==>
      exists i, j :: 0 <= i < 6 && 0 <= j < 6 && Normalize(p1[i]) == Normalize(p2[j])
  {
    var n1, n2 := Normalized(p1), Normalized(p2);
    assert forall i :: 0 <= i < 6 ==> n1[i] != "" by {
      forall i | 0 <= i < 6 ensures n1[i] != "" {
        assert !Blank(Slot(p1, i));
      }
    }
    CrossTeamClashExactly(n1, n2);
  }

  /**
   * On the form's six-slot rosters, the request goes out exactly when the
   * access code and both team names are given, every slot holds a name, no
   * normalised name repeats within a team, and no normalised name is on both
   * teams.
   */
  lemma ValidateAccepts(accessCode: string, team1Name: string, team2Name: string,
                        team1Players: seq<string>, team2Players: seq<string>)
    requires |team1Players| == 6 && |team2Players| == 6
    ensures Validate(accessCode, team1Name, team2Name, team1Players, team2Players).None? <==>
      !Blank(accessCode) && !Blank(team1Name) && !Blank(team2Name) &&
      (forall k :: 0 <= k < 6 ==> !Blank(team1Players[k]) && !Blank(team2Players[k])) &&
      !HasDuplicate(Normalized(team1Players)) && !HasDuplicate(Normalized(team2Players)) &&
      !(exists i, j :: 0 <= i < 6 && 0 <= j < 6 && Normalize(team1Players[i]) == Normalize(team2Players[j]))
  {
    ValidateNone(accessCode, team1Name, team2Name, team1Players, team2Players);
    FilledExactly(team1Players, team2Players);
    if FilledFrom(team1Players, team2Players, 0) {
      ClashExactly(team1Players, team2Players);
    }
  }

  // -----------------------------------------------------------------------
  // checkDuplicates

  /** `.filter(n => n)`: the non-empty names, in order. */
  function NonEmpty(s: seq<string>): (r: seq<string>)
    ensures forall x :: x in r <==> x in s && x != ""
  {
    if s == [] then []
    else (if s[0] != "" then [s[0]] else []) + NonEmpty(s[1..])
  }

  /** Some non-empty value occurs at two different positions. */
  predicate HasNonEmptyDuplicate(s: seq<string>) {
    exists i, j :: 0 <= i < j < |s| && s[i] == s[j] && s[i] != ""
  }

  lemma HasDuplicateCons(x: string, t: seq<string>)
    ensures HasDuplicate([x] + t) <==> x in t || HasDuplicate(t)
  {
    var s := [x] + t;
    if x in t {
      var j :| 0 <= j < |t| && t[j] == x;
      assert s[0] == s[j + 1];
    }
    if HasDuplicate(t) {
      var i, j :| 0 <= i < j < |t| && t[i] == t[j];
      assert s[i + 1] == s[j + 1];
    }
    if HasDuplicate(s) {
      var i, j :| 0 <= i < j < |s| && s[i] == s[j];
      if i == 0 {
        assert t[j - 1] == x;
      } else {
        assert t[i - 1] == t[j - 1];
      }
    }
  }

  lemma HasNonEmptyDuplicateCons(x: string, t: seq<string>)
    ensures HasNonEmptyDuplicate([x] + t) <==> (x != "" && x in t) || HasNonEmptyDuplicate(t)
  {
    var s := [x] + t;
    if x != "" && x in t {
      var j :| 0 <= j < |t| && t[j] == x;
      assert s[0] == s[j + 1];
    }
    if HasNonEmptyDuplicate(t) {
      var i, j :| 0 <= i < j < |t| && t[i] == t[j] && t[i] != "";
      assert s[i + 1] == s[j + 1];
    }
    if HasNonEmptyDuplicate(s) {
      var i, j :| 0 <= i < j < |s| && s[i] == s[j] && s[i] != "";
      if i == 0 {
        assert t[j - 1] == x;
      } else {
        assert t[i - 1] == t[j - 1];
      }
    }
  }

  /** Dropping the empty names keeps exactly the repeats among the non-empty ones. */
  lemma {:induction false} NonEmptyDuplicates(s: seq<string>)
    ensures HasDuplicate(NonEmpty(s)) <==> HasNonEmptyDuplicate(s)
  {
    if s != [] {
      NonEmptyDuplicates(s[1..]);
      HasNonEmptyDuplicateCons(s[0], s[1..]);
      assert s == [s[0]] + s[1..];
      if s[0] != "" {
        HasDuplicateCons(s[0], NonEmpty(s[1..]));
      } else {
        assert NonEmpty(s) == NonEmpty(s[1..]);
      }
    }
  }

  /** The condition under which `checkDuplicates` shows its warning. */
  predicate DuplicateWarning(team1: seq<string>, team2: seq<string>) {
    |Duplicates(NonEmpty(Normalized(team1 + team2)))| > 0
  }

  /**
   * The warning is shown exactly when two different slots, over both teams
   * together, hold names that are equal after normalisation and not blank.
   */
  lemma DuplicateWarningExactly(team1: seq<string>, team2: seq<string>)
    ensures DuplicateWarning(team1, team2) <==>
      var all := team1 + team2;
      exists i, j :: 0 <= i < j < |all| && Normalize(all[i]) == Normalize(all[j]) && !Blank(all[i])
  {
    var names := Normalized(team1 + team2);
    DuplicatesExactly(NonEmpty(names));
    NonEmptyDuplicates(names);
  }

  // -----------------------------------------------------------------------
  // The form

  /** The POST to the tournaments endpoint: the form's fields as they stood. */
  datatype CreateRequest = CreateRequest(
    accessCode: string, team1Name: string, team2Name: string,
    team1Players: seq<string>, team2Players: seq<string>, date: string)

  /** What became of the POST: created, refused with the server's error text, or thrown with a message. */
  datatype PostOutcome = Created(tournamentId: string) | Refused(error: string) | Thrown(message: string)

  const DefaultFailure: string := "Failed to create tournament"

  /** The error text the form shows for a failed POST. */
  function FailureMessage(outcome: PostOutcome): (r: string)
    requires !outcome.Created?
    ensures outcome.Refused? && outcome.error != "" ==> r == outcome.error
    ensures outcome.Refused? && outcome.error == "" ==> r == DefaultFailure
    ensures outcome.Thrown? ==> r == outcome.message
  {
    if outcome.Thrown? then outcome.message
    else if outcome.error != "" then outcome.error
    else DefaultFailure
  }

  /**
   * The checks of `handleSubmit`, run one after another on the form's
   * fields: the first that fails gives the error and ends the handler.
   */
  method CheckForm(accessCode: string, team1Name: string, team2Name: string,
                   team1Players: seq<string>, team2Players: seq<string>) returns (failure: Option<FormError>)
    ensures failure == Validate(accessCode, team1Name, team2Name, team1Players, team2Players)
  {
    if Blank(accessCode) {
      return Some(AccessCodeRequired);
    }
    if Blank(team1Name) || Blank(team2Name) {
      return Some(TeamNamesRequired);
    }

    for i := 0 to 6
      invariant forall k :: 0 <= k < i ==> !Blank(Slot(team1Players, k)) && !Blank(Slot(team2Players, k))
    {
      if Blank(Slot(team1Players, i)) {
        FirstEmptySlotAt(team1Players, team2Players, 0, i);
        return Some(MissingPlayer(TeamA, Label(i)));
      }
      if Blank(Slot(team2Players, i)) {
        FirstEmptySlotAt(team1Players, team2Players, 0, i);
        return Some(MissingPlayer(TeamB, Label(i)));
      }
    }
    FirstEmptySlotAt(team1Players, team2Players, 0, 6);

    var team1Names := Normalized(team1Players);
    var team2Names := Normalized(team2Players);
    var team1Duplicates := Duplicates(team1Names);
    if |team1Duplicates| > 0 {
      return Some(TeamADuplicates);
    }
    var team2Duplicates := Duplicates(team2Names);
    if |team2Duplicates| > 0 {
      return Some(TeamBDuplicates);
    }
    var duplicateAcrossTeams := FindShared(team1Names, team2Names);
    if duplicateAcrossTeams.Some? && duplicateAcrossTeams.value != "" {
      return Some(SamePlayerOnBothTeams);
    }
    return None;
  }

  class CreateForm {
    var accessCode: string
    var team1Name: string
    var team2Name: string
    var tournamentDate: string
    var team1Players: seq<string>
    var team2Players: seq<string>
    var loading: bool
    var error: Option<FormError>
    var duplicateWarning: bool
    /** The POSTs sent so far. */
    var requests: seq<CreateRequest>
    /** The tournament page navigated to, if any. */
    var navigatedTo: Option<string>

    /** Both rosters have their six slots. */
    predicate Valid()
      reads this
    {
      |team1Players| == 6 && |team2Players| == 6
    }

    /** The form as first shown: default code and team names, the given date, six empty slots per team. */
    constructor (today: string)
      ensures Valid()
      ensures accessCode == "111" && team1Name == "Team A" && team2Name == "Team B" && tournamentDate == today
      ensures team1Players == team2Players == ["", "", "", "", "", ""]
      ensures !loading && error.None? && !duplicateWarning && requests == [] && navigatedTo.None?
    {
      accessCode, team1Name, team2Name, tournamentDate := "111", "Team A", "Team B", today;
      team1Players := ["", "", "", "", "", ""];
      team2Players := ["", "", "", "", "", ""];
      loading, error, duplicateWarning := false, None, false;
      requests, navigatedTo := [], None;
    }

    /**
     * `handleSubmit`: the first failing check sets its error and nothing is
     * sent. When all pass, exactly one request carrying the form's fields is
     * sent; on success the page navigates to the new tournament, and on
     * failure the error shows the failure text and loading is switched off.
     */
    method HandleSubmit(outcome: PostOutcome)
      requires Valid()
      modifies this
      ensures Valid()
      ensures accessCode == old(accessCode) && team1Name == old(team1Name) && team2Name == old(team2Name)
      ensures tournamentDate == old(tournamentDate) && duplicateWarning == old(duplicateWarning)
      ensures team1Players == old(team1Players) && team2Players == old(team2Players)
      ensures var verdict := Validate(old(accessCode), old(team1Name), old(team2Name), old(team1Players), old(team2Players));
        && (verdict.Some? ==>
              error == verdict && requests == old(requests) && loading == old(loading) &&
              navigatedTo == old(navigatedTo))
        && (verdict.None? ==>
              requests == old(requests) +
                [CreateRequest(old(accessCode), old(team1Name), old(team2Name), old(team1Players), old(team2Players),
                               old(tournamentDate))] &&
              (if outcome.Created? then
                 error.None? && loading && navigatedTo == Some(outcome.tournamentId)
               else
                 error == Some(RequestFailed(FailureMessage(outcome))) && !loading &&
                 navigatedTo == old(navigatedTo)))
    {
      error := None;
      var failure := CheckForm(accessCode, team1Name, team2Name, team1Players, team2Players);
      if failure.Some? {
        error := failure;
        return;
      }

      loading := true;
      requests := requests + [CreateRequest(accessCode, team1Name, team2Name, team1Players, team2Players, tournamentDate)];
      if outcome.Created? {
        navigatedTo := Some(outcome.tournamentId);
      } else {
        error := Some(RequestFailed(FailureMessage(outcome)));
        loading := false;
      }
    }

    /** `checkDuplicates`: sets the warning when the two lists together repeat a non-blank name, clears it otherwise. */
    method CheckDuplicates(team1: seq<string>, team2: seq<string>)
      modifies this`duplicateWarning
      ensures duplicateWarning == DuplicateWarning(team1, team2)
    {
      var allNames := NonEmpty(Normalized(team1 + team2));
      var duplicates := Duplicates(allNames);
      if |duplicates| > 0 {
        duplicateWarning := true;
      } else {
        duplicateWarning := false;
      }
    }

    /** `updateTeam1Player`: one slot of Team A changes, Team B is untouched, and the warning is recomputed. */
    method UpdateTeam1Player(index: int, value: string)
      requires Valid() && 0 <= index < 6
      modifies this`team1Players, this`duplicateWarning
      ensures Valid()
      ensures team1Players == old(team1Players)[index := value] && team2Players == old(team2Players)
      ensures duplicateWarning == DuplicateWarning(team1Players, team2Players)
    {
      var newPlayers := team1Players;
      newPlayers := newPlayers[index := value];
      team1Players := newPlayers;
      CheckDuplicates(newPlayers, team2Players);
    }

    /** `updateTeam2Player`: one slot of Team B changes, Team A is untouched, and the warning is recomputed. */
    method UpdateTeam2Player(index: int, value: string)
      requires Valid() && 0 <= index < 6
      modifies this`team2Players, this`duplicateWarning
      ensures Valid()
      ensures team2Players == old(team2Players)[index := value] && team1Players == old(team1Players)
      ensures duplicateWarning == DuplicateWarning(team1Players, team2Players)
    {
      var newPlayers := team2Players;
      newPlayers := newPlayers[index := value];
      team2Players := newPlayers;
      CheckDuplicates(team1Players, newPlayers);
    }
  }
}
