# Team badminton tournament: scoring engine and entry forms

This project models the core of a team badminton tournament tracker in Dafny. Two teams of six players (three women, three men) play a fixed chart of nine doubles matches: three mixed (XD), three men's (MD) and three women's (WD). Each match is played over two sets.

The model covers three parts.

- **The scoring library** (`src/lib/gameLogic.ts`):
  - the set-score rule and the set winner;
  - the fixture chart;
  - tournament creation;
  - a score update, which mutates the match in place and recounts the tournament on a shallow copy;
  - the recount of sets won and points, with the tournament-winner rule (9 sets and ahead, with a points tiebreak at 9-9);
  - the completion and by-type queries.
- **The score-entry form** (`src/components/MatchesTab.tsx`):
  - its own, stricter badminton score check;
  - the order in which `handleSubmit` validates and submits the two sets.
  - The form's `onScoreUpdate` callback is a parameter, so it can fail on either call. In the app, the only callback passed in is the tournament page's `handleScoreUpdate` (src/app/tournament/[id]/page.tsx:35-56). It catches every error and never rejects. So in the app both calls always count as successful, and the form clears its fields even when the server refused the score.
- **The tournament-creation form** (`src/app/create-tournament/page.tsx`):
  - the ordered validation chain of `handleSubmit`, and the request it sends;
  - the live duplicate-name warning;
  - the two roster-slot update handlers.

How the files map onto the source:

- `score_rules.dfy` holds `validateSetScore` and `determineSetWinner` as functions.
- `tournament_spec.dfy` holds value-level definitions and lemmas. It has the match record as a datatype, the fixture chart, what one score submission does to a match, the recount as a fold, and the winner rule.
- `tournament.dfy` holds `Match` and `Tournament` as classes, because the source updates them in place. `updateMatchScore` copies the tournament shallowly, so the updated `Match` object is shared. The input tournament therefore sees the new set, while the recounted counters go on the copy only. The methods are proved against the functions of `tournament_spec.dfy`.
- `text.dfy` holds `trim` and `toLowerCase`, which the forms use to compare names.
- `matches_tab.dfy` and `create_tournament.dfy` hold the two forms. Each is a class whose fields are the component's state, plus pure functions for the checks.
- `wrappers.dfy` holds `Option`.

The model follows the code's `validateSetScore`, not the doc comment above it. The comment (src/lib/gameLogic.ts:53-58) describes the usual "win by two past 21, capped at 30" rule. The code is looser:

- any pair with a 30 in it is accepted, including 30-0 and 30-30;
- otherwise a side with 21 or more that leads by two or more wins, so 25-10 is accepted.

`ScoreRules.ValidSetScoreWitnesses` and `MatchesTab.BadmintonIsStricter` pin this difference down.

## Model

| member | source | states |
|---|---|---|
| ScoreRules.ValidSetScore | src/lib/gameLogic.ts:59-73 | Accepted exactly when both scores are in 0..30 and the higher score is 30, or is at least 21 with a lead of at least two. |
| ScoreRules.SetWinner | src/lib/gameLogic.ts:78-81 | No winner exactly for a rejected pair. Team 1 exactly when the pair is valid and score1 > score2. Team 2 exactly when it is valid and score1 ≤ score2, so 30-30 goes to team 2. |
| ScoreRules.WinnerReachedWinningScore | src/lib/gameLogic.ts:59-81 | A named set winner scored at least 21 and no less than the other side. |
| ScoreRules.ValidSetScoreWitnesses | src/lib/gameLogic.ts:53-73 | 30-0, 30-30, 25-10, 21-19 and 23-21 are accepted. 25-24, 20-19, 31-10, -1-21 and 21-20 are rejected. This is the gap from the doc comment's rule. |
| TournamentSpec.FixtureShape | src/lib/gameLogic.ts:89-220 | Nine unplayed matches with ids 1..9 in order and types XD,XD,XD,MD,WD,MD,WD,MD,WD. Each side's pair is two different roster slots of the genders the type requires. |
| TournamentSpec.FixtureBalanced | src/lib/gameLogic.ts:89-220 | The chart has three matches of each type. Every roster slot of either team plays exactly three matches. |
| TournamentSpec.ApplyScoreOutcome | src/lib/gameLogic.ts:292-312 | A valid submission replaces only the named set slot with the scores and their winner. It keeps the fixture fields and never resets `completed`. With both sets present, the match is completed and won by team 1 exactly when team 1 won both sets. A well-formed match stays well-formed. |
| TournamentSpec.ApplyScoreSplitGoesToTeam2 | src/lib/gameLogic.ts:306-312 | A 1-1 split is credited to team 2, whichever set team 2 won. A 2-0 sweep goes to the sweeping team. |
| TournamentSpec.ApplyScoreIdempotent | src/lib/gameLogic.ts:292-312 | Submitting the same scores for the same set a second time leaves the match as after the first submission. |
| TournamentSpec.ResubmissionSameTally | src/lib/gameLogic.ts:292-345 | An identical resubmission leaves the match list, and so the recount, as after the first submission. |
| TournamentSpec.TallyPrefix | src/lib/gameLogic.ts:327-340 | Folding one more match adds exactly that match's two entered sets to the counters. |
| TournamentSpec.ValidSetsContribution | src/lib/gameLogic.ts:328-339 | A match with valid sets adds one won set per entered set, and at most 30 points per entered set to each team. |
| TournamentSpec.TallyCountsSets | src/lib/gameLogic.ts:327-340 | Over well-formed matches, the sets won by both teams add up to two per completed match plus one per half-scored match. The counters are never negative, and points are at most 30 per entered set. |
| TournamentSpec.TallyUnscored | src/lib/gameLogic.ts:327-345 | With no set entered anywhere, the recount is all zero, which matches a new tournament's counters. |
| TournamentSpec.TallyReplace | src/lib/gameLogic.ts:321-345 | After one match changes, recounting from scratch equals the old counters minus that match's old contribution plus its new one. |
| TournamentSpec.TallyUniform | src/lib/gameLogic.ts:327-340 | When every match has the same two sets, the recount is one match's contribution times the number of matches. |
| TournamentSpec.TournamentWinnerRule | src/lib/gameLogic.ts:347-358 | A team wins exactly when it has at least 9 sets and more than the other team, or when the sets stand 9-9 and it has strictly more points. 9-9 on equal points has no winner, and the two teams never both win. |
| TournamentSpec.TallyScenarios | src/lib/gameLogic.ts:327-358 | Nine 21-0, 21-0 matches give 18-0 sets and team 1 wins. Nine 1-1 splits give 9-9 and are decided by points, or by nobody when points are equal. |
| TournamentSpec.CompletedCountAll | src/lib/gameLogic.ts:366-368 | When every well-formed match is completed, all of them count as completed and none as half-scored. |
| TournamentSpec.CompleteTournamentDecided | src/lib/gameLogic.ts:347-368 | Once all nine well-formed matches are completed, every match has a winner and 18 sets have been won in all. The tournament then lacks a winner exactly at 9-9 on equal points. |
| Text.TrimSpec | src/lib/gameLogic.ts:235 | `trim` returns a slice of the name that neither starts nor ends with white space, with only white space cut off on either side. |
| Text.TrimEmpty | src/app/create-tournament/page.tsx:39-47 | A name trims to the empty string exactly when it is all white space. |
| Text.LowerSpec | src/app/create-tournament/page.tsx:64-65 | Lower-casing keeps the length and maps each character on its own. |
| Text.Normalize | src/app/create-tournament/page.tsx:64-65 | A normalised name is empty exactly when the raw name is blank. |
| GameLogic.Match.constructor | src/lib/gameLogic.ts:94-105 | A new match has the given id, type and players, no sets, is not completed and has no winner. |
| GameLogic.Match.RecordSet | src/lib/gameLogic.ts:292-312 | The match's new state is `ApplyScore` of its old state. |
| GameLogic.Tournament.constructor | src/lib/gameLogic.ts:247-272 | Every field of the new tournament holds the given value. |
| GameLogic.Tournament.Copy | src/lib/gameLogic.ts:285 | The shallow copy has every field of the original and shares its match list. |
| GameLogic.CreateMatches | src/lib/gameLogic.ts:89-220 | Nine fresh match objects, whose states are the chart's nine matches in order. |
| GameLogic.Roster | src/lib/gameLogic.ts:232-244 | Slot i gets id i + 1, the trimmed name and the team, and is a woman exactly for the first three slots. |
| GameLogic.FixtureUsesRoster | src/lib/gameLogic.ts:232-244 | Every player id in the chart names a player of the right team's six-slot roster, with the gender the chart's slot numbering gives it. |
| GameLogic.CreateTournament | src/lib/gameLogic.ts:225-273 | The tournament has the given id, code, names and creation time, and the rosters built from the names. The date is the given one, or today when it is missing or empty. It has nine fresh chart matches, zero counters (which equal their recount), no winner, and is not finalized. |
| GameLogic.FindMatch | src/lib/gameLogic.ts:286 | The position of the first match with that id, or none exactly when no match has it. |
| GameLogic.CountSet | src/lib/gameLogic.ts:328-339 | One set slot adds its winner's set and both teams' scores to the counters; an empty slot adds nothing. |
| GameLogic.CountMatches | src/lib/gameLogic.ts:321-340 | The loop's counters equal the recount of the matches' current states. |
| GameLogic.DecideWinner | src/lib/gameLogic.ts:347-358 | The if-chain yields the tournament-winner rule applied to the counters. |
| GameLogic.CalculateTournamentStats | src/lib/gameLogic.ts:321-361 | Returns the same object. Its counters become the recount of its matches, whatever they were before, and its winner becomes the rule applied to them. Matches and `isFinalized` are untouched. |
| GameLogic.UpdateMatchScore | src/lib/gameLogic.ts:278-316 | With an unknown id or a rejected score, it returns the input and no match changes. Otherwise only the first match with that id changes, to `ApplyScore` of its old state. It returns a fresh copy that shares the match list, has the input's other fields, and holds the recount and the winner rule. The input's own fields are unchanged. |
| GameLogic.IsTournamentComplete | src/lib/gameLogic.ts:366-368 | True exactly when every match is completed. |
| GameLogic.MatchesOfTypeExactly | src/lib/gameLogic.ts:380-382 | From a position on, every match kept has the given type, every match of that type is kept, and the number kept is their count. |
| GameLogic.MatchesOfTypeInOrder | src/lib/gameLogic.ts:380-382 | The kept matches sit at strictly increasing positions of the list, so `filter` keeps the list's order. |
| GameLogic.GetMatchesByType | src/lib/gameLogic.ts:380-382 | Every match returned has the type and comes from the tournament. Every match of the type is returned, and the length is their count. The returned matches appear in the tournament's order. |
| GameLogic.ChartMatchesByType | src/lib/gameLogic.ts:380-382 | A tournament laid out by the chart has three matches of each type. |
| MatchesTab.ValidBadmintonScore | src/components/MatchesTab.tsx:47-72 | Both scores must be in 0..30. A top score of 21 needs the other side at 19 or less. A top score of 22-29 needs a margin of exactly two. A top score of 30 needs the other side at 28 or more. |
| MatchesTab.BadmintonRefinesSetScore | src/components/MatchesTab.tsx:47-72 | Every pair the form accepts is accepted by the scoring library. |
| MatchesTab.BadmintonIsStricter | src/components/MatchesTab.tsx:47-72 | 25-10, 30-20 and 30-27 pass the library but not the form. 30-28, 30-29, 30-30 and 24-22 pass the form, and 21-20 fails it. |
| MatchesTab.Plan | src/components/MatchesTab.tsx:74-107 | The set-1 alert appears exactly when set 1 does not parse. Calls are made exactly when set 1 parses and is valid, and set 2 is valid whenever both its fields parse. Set 1 is sent first; set 2 is sent second exactly when both its fields parse. |
| MatchesTab.PlannedCallsAccepted | src/components/MatchesTab.tsx:74-107 | Every call the form makes is for the edited match and carries a pair the scoring library accepts. |
| MatchesTab.Issued | src/components/MatchesTab.tsx:102-107 | The calls made are a non-empty prefix of the planned ones. The prefix is shorter exactly when the first call fails and a second was planned. |
| MatchesTab.ScoreForm.constructor | src/components/MatchesTab.tsx:13-18 | Nothing is being edited, all four score fields are empty, and nothing is being submitted. |
| MatchesTab.ScoreForm.HandleSubmit | src/components/MatchesTab.tsx:74-119 | A rejected submission adds its alert and changes nothing else. Otherwise the planned calls are made in order up to the first failure, and `submitting` ends false. The fields and the edited match are cleared exactly when no call failed. |
| CreateTournamentForm.Label | src/app/create-tournament/page.tsx:50-61 | Slot i is labelled W(i+1) for i in 0..2 and M(i-2) for i in 3..5. |
| CreateTournamentForm.LabelInjective | src/app/create-tournament/page.tsx:50-61 | The six slots have six different labels. |
| CreateTournamentForm.IndexOfSpec | src/app/create-tournament/page.tsx:67 | `indexOf` is -1 exactly for an absent name, and otherwise the position of the name's first occurrence. |
| CreateTournamentForm.DuplicatesFromSound | src/app/create-tournament/page.tsx:67 | Every name in the duplicate list occurs at two different positions. |
| CreateTournamentForm.DuplicatesFromNonEmpty | src/app/create-tournament/page.tsx:67 | The duplicate list from a position on is non-empty exactly when some entry there is not its name's first occurrence. |
| CreateTournamentForm.DuplicatesExactly | src/app/create-tournament/page.tsx:64-77 | The duplicate list is non-empty exactly when some name occurs at two different positions. |
| CreateTournamentForm.Normalized | src/app/create-tournament/page.tsx:64-65 | Each name is trimmed and lower-cased, position by position. |
| CreateTournamentForm.FindSharedSpec | src/app/create-tournament/page.tsx:80 | `find` fails exactly when no Team A name is in Team B's list. Otherwise it returns the first Team A name that is. |
| CreateTournamentForm.CrossTeamClashExactly | src/app/create-tournament/page.tsx:80-84 | When Team A has no empty name, the cross-team error fires exactly when the two lists share a name. |
| CreateTournamentForm.FirstEmptySlotSpec | src/app/create-tournament/page.tsx:50-61 | The slot check passes exactly when every slot of both teams holds a name. Otherwise it reports a missing player. |
| CreateTournamentForm.FirstEmptySlotAt | src/app/create-tournament/page.tsx:50-61 | When all slots before k are filled, a blank Team A slot k is reported with its label. Failing that, a blank Team B slot k is reported. |
| CreateTournamentForm.Validate | src/app/create-tournament/page.tsx:39-84 | The chain never yields a request failure; that error comes only from the request. |
| CreateTournamentForm.ValidateOrder | src/app/create-tournament/page.tsx:39-84 | Each error is raised exactly when every earlier check passed and its own check fails. There is no error exactly when every check passes. |
| CreateTournamentForm.ValidateNone | src/app/create-tournament/page.tsx:39-84 | The chain yields no error exactly when each of its six checks passes. |
| CreateTournamentForm.FilledExactly | src/app/create-tournament/page.tsx:50-61 | On six-slot rosters, the slot check passes exactly when no slot of either team is blank. |
| CreateTournamentForm.ClashExactly | src/app/create-tournament/page.tsx:80-84 | With every slot filled, the cross-team check fires exactly when some normalised Team A name equals some normalised Team B name. |
| CreateTournamentForm.ValidateAccepts | src/app/create-tournament/page.tsx:39-84 | On six-slot rosters, the request goes out exactly when: the code and both names are given; every slot holds a name; no normalised name repeats within a team; and no normalised name is on both teams. |
| CreateTournamentForm.CheckForm | src/app/create-tournament/page.tsx:39-84 | The checks run with early returns yield exactly `Validate`'s verdict. |
| CreateTournamentForm.NonEmpty | src/app/create-tournament/page.tsx:116 | Keeps exactly the non-empty names. |
| CreateTournamentForm.NonEmptyDuplicates | src/app/create-tournament/page.tsx:116-117 | After dropping empty names, a repeat remains exactly when a non-empty name occurred twice. |
| CreateTournamentForm.DuplicateWarningExactly | src/app/create-tournament/page.tsx:115-124 | The warning condition holds exactly when two different slots, across both teams, hold names that are equal after normalisation and not blank. |
| CreateTournamentForm.FailureMessage | src/app/create-tournament/page.tsx:101-111 | A refused POST shows the server's error text, or the default text when that is empty. A thrown request shows its message. |
| CreateTournamentForm.CreateForm.constructor | src/app/create-tournament/page.tsx:11-31 | Access code "111", team names "Team A" and "Team B", the given date, six empty slots per team, no error or warning, not loading. |
| CreateTournamentForm.CreateForm.HandleSubmit | src/app/create-tournament/page.tsx:34-113 | The six-slot rosters are kept. The first failing check sets its error and nothing is sent. When every check passes, exactly one request carrying the form's fields is sent. Success navigates to the new tournament and keeps loading on; failure shows the failure text and turns loading off. |
| CreateTournamentForm.CreateForm.CheckDuplicates | src/app/create-tournament/page.tsx:115-124 | Sets the warning exactly under the warning condition and clears it otherwise. |
| CreateTournamentForm.CreateForm.UpdateTeam1Player | src/app/create-tournament/page.tsx:126-131 | The six-slot rosters are kept. Only the given slot of Team A changes, Team B is untouched, and the warning is recomputed on the new lists. |
| CreateTournamentForm.CreateForm.UpdateTeam2Player | src/app/create-tournament/page.tsx:133-138 | The six-slot rosters are kept. Only the given slot of Team B changes, Team A is untouched, and the warning is recomputed on the new lists. |

## Left out

- Tournament ids, clock and date: `generateTournamentId` (`Math.random`), today's date formatted for Los Angeles, and `new Date()` for the creation time. These are parameters of `CreateTournament`; the form's default date is a parameter of its constructor.
- `toLowerCase` is modelled on ASCII letters only; other characters are kept as they are. `trim` removes the full ECMAScript white-space and line-terminator set. Unicode case mapping is not modelled.
- `parseInt` is a function parameter that returns no number for NaN. Its parsing rules are not modelled.
- React state, `alert`, `fetch`, `router.push`, `async`/`await` and `try`/`finally` are modelled as fields:
  - the alerts raised and the calls made are logs that grow;
  - the requests sent and the page navigated to are fields;
  - whether each `onScoreUpdate` call fails, and what the POST returns, are parameters.
- Only the messages the forms show are modelled: errors are a datatype, not the message strings. The duplicate warning is a flag rather than a string.
- `response.json()` parsing, and an error with no message, are not modelled.
- Re-renders between state updates are not modelled.
- The SQL persistence layer, the API routes, the analytics pages and the rendering-only components are not part of this model.
- The match-editing helpers `handleStartEdit`, `handleCancel` and the player-name lookup are not part of this model.
- CreateTournamentForm.CreateForm.UpdateTeam1Player: requires a slot index in 0..5 on six-slot rosters. In JavaScript, assigning past the end would extend the array, but the form only ever passes slots 0-5 (src/app/create-tournament/page.tsx:182, 195).
- CreateTournamentForm.CreateForm.UpdateTeam2Player: requires a slot index in 0..5 on six-slot rosters, for the same reason (src/app/create-tournament/page.tsx:215, 228).
- GameLogic.CreateMatches: does not state that the nine objects are pairwise distinct. It follows from their distinct ids, which the postcondition gives.
- Scores, set numbers, match ids and the counters are JavaScript `number`s (doubles), but they are modelled as mathematical integers. The score route checks only that the fields are present (src/app/api/tournaments/[id]/score/route.ts:11-13) and passes the JSON values on as they are. Payloads outside the model include:
  - non-integer scores such as 21.5-19, which `validateSetScore` accepts and the recount sums;
  - `null` scores, which compare as 0, so `null` against 30 is accepted.
- GameLogic.UpdateMatchScore: `setNumber` is an `int`; any value other than 1 selects set 2, as the source's `else` branch does.
- `calculateTournamentStats` being idempotent is not a separate lemma. An identical score resubmission is covered at the value level by `TournamentSpec.ResubmissionSameTally`. It follows from the postcondition of `GameLogic.CalculateTournamentStats`, which does not depend on the old counters.
