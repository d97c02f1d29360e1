# roundRobin statistics core, modelled in Dafny

This project models the statistics core of a round-robin tournament site built with Django. It covers two versions of the app:

- **roundRobin.** A series (`Match`) is a best-of-three of up to three `Game`s. The admin's `save_related` applies each newly decided game to both players' counters exactly once, then recomputes the series winner.
- **ipx1/roundRobin.** A `Match` is a single game. `Match.process_match_results` applies it, and the admin's `save_model` runs that once per match and reports failures.

In both versions a `Player` keeps stored counters: wins, losses, first-blood wins, farm wins, total farm, kills, deaths and total win time. It also derives values from them: matches played, average win time, win rate, kill/death balance and the `MM:SS` display. A game is a "farm" game when it lasts at least `MATCH_FARM_LIMIT` (twelve minutes), and a "first blood" game otherwise. The views sort the leaderboard by a three-part key and group the match list by round.

Modules:

- `Options`: the option type.
- `Stats`: the player record and its derived values; `add_match_result` as `PlayerTable.AddMatchResult`, over a class that holds the player table as a map that methods reassign. The specification function is `AfterResult`.
- `WinTimeDisplay`: `average_win_time_display`, with a parser for its output as partner.
- `Series`: the roundRobin `Match` (a class) and `Game` (a datatype held in the match's `games` sequence), the status constants, and the series counts of the player.
- `SeriesAdmin`: `save_related` (a loop over the games, specified by `SettleAll` and `ApplyPending`) and `get_readonly_fields` of the series editor.
- `SingleMatch`: the ipx1 `Match` class and `process_match_results`. A storage failure is a `Fault` parameter.
- `SingleMatchAdmin`: ipx1 `save_model` and `get_readonly_fields`.
- `Views`: `leaderboard_view`'s stable sort and `match_list_view`'s grouping loop.

Durations are whole microseconds, the resolution of Python's `timedelta`. Dividing one by an integer rounds half to even, as `timedelta / int` does. Win rates are exact ratios (`real`). The two versions share the same `add_match_result` and the same player properties (ipx1/roundRobin/models.py:47-137), so one `Stats` module models both.

The database is the `PlayerTable` map and the `games` sequence. Row order comes from the input sequences.

The two management commands are modelled as scenarios over fresh players: `FullTestScenario` and `PlayerTestScenario`. Their contracts state what the code computes. In two places this differs from the expectations the full-test command prints:

- After the second game it prints "Player A (Losses=2, Deaths=1)" (run_full_test.py:97). The code gives A one loss and no death, because that loss is a farm game and it is A's first loss.
- After the third game it prints "Player B (… Deaths=0)" (run_full_test.py:117). B keeps the death from the first game.

## Model

| member | source | states |
|---|---|---|
| Stats.NewPlayer | roundRobin/models.py:39-49 | a new player has the given name, no matches played, and counters that satisfy the consistency relations |
| Stats.NewPlayerStats | roundRobin/models.py:56-76 | a new player's win rate, average win time and kill/death balance are all zero |
| Stats.MatchesPlayed | roundRobin/models.py:56-58 | matches played is at least the wins and at least the losses, and zero exactly when both are |
| Stats.KillDeathBalance | roundRobin/models.py:74-76 | the balance is positive exactly when kills exceed deaths, and for consistent counters it lies between minus the losses and the wins |
| Stats.DivideAndRound | roundRobin/models.py:64 | `timedelta / int`: the quotient is within half a divisor of the exact ratio, and an exact tie goes to the even quotient |
| Stats.AverageWinTime | roundRobin/models.py:60-64 | zero without wins; otherwise the total win time over the wins, to the nearest microsecond; never negative for a non-negative total |
| Stats.WinRate | roundRobin/models.py:66-72 | lies in 0..100; zero exactly when there are no wins; 100 exactly when there are wins and no losses; rate times matches equals 100 times wins |
| Stats.AfterResult | roundRobin/models.py:119-137 | one result keeps the username, adds exactly one match played, and preserves the counter consistency |
| Stats.WinEffect | roundRobin/models.py:122-130 | a win adds one win, the duration to the win time and the farm, plus one first-blood win and one kill or one farm win as the duration classifies the game; losses and deaths stay |
| Stats.LossEffect | roundRobin/models.py:131-135 | a loss adds one loss and the farm, plus a death only for a first-blood game; every win counter stays |
| Stats.KillDeathBalanceEffect | roundRobin/models.py:74-76 | the kill/death balance moves only in a first-blood game: up by one for the winner, down by one for the loser |
| Stats.ResultsCommute | roundRobin/models.py:119-137 | the updates are increments, so two results in either order give the same record |
| Stats.Classify | roundRobin/admin.py:129-132 | a game is recorded as Farm exactly when it lasts at least the twelve-minute limit, and as FirstBlood exactly when it is shorter (the same rule as ipx1/roundRobin/models.py:205-208) |
| Stats.SplitSides | roundRobin/admin.py:124-126 | the loser is one of the two players and the two farms are the two sides' farms; the winner takes player1's farm when it is player1 and player2's farm otherwise (the same split as ipx1/roundRobin/models.py:200-203); `SidesOfParticipant` and `SidesOfOutsider` give the loser |
| Stats.SidesOfParticipant | roundRobin/admin.py:124-126 | with distinct players and a winner among them, the loser is the other player and each side takes its own farm |
| Stats.SidesOfOutsider | ipx1/roundRobin/models.py:200-203 | a winner that is neither player gets player2's farm, and player1 takes the loss |
| Stats.ApplyOutcome | roundRobin/admin.py:134-146 | one decided game keeps the table's keys and changes nobody outside the game; the winner gains one win, the loser one loss; consistent records stay consistent |
| Stats.PlayerTable.AddMatchResult | roundRobin/models.py:119-137 | the update built step by step leaves exactly that player's row replaced by the `AfterResult` record |
| Stats.Increment | roundRobin/models.py:136 | the single `UPDATE` that adds each delta of the update to its counter; `PlayerTable.AddMatchResult` states that the update it builds yields the `AfterResult` row |
| WinTimeDisplay.ParseDigits | roundRobin/models.py:86 | reading back the decimal digits of n gives n |
| WinTimeDisplay.TruncatedSeconds | roundRobin/models.py:83 | `int(total_seconds())`: the whole seconds truncated toward zero, so the duration lies within one second of them on the side away from zero |
| WinTimeDisplay.Pad2 | roundRobin/models.py:86 | `f"{n:02}"`, with the sign written before the digits; `ParsePad2` states that it reads back as n and has exactly two characters for 0..99 |
| WinTimeDisplay.AverageWinTimeDisplay | roundRobin/models.py:78-86 | its meaning is stated by `DisplayDenotesAverage` (the text reads back as minutes and seconds of the truncated average) and `ZeroDisplay` ("00:00" exactly for a zero truncated average) |
| WinTimeDisplay.ParsePad2 | roundRobin/models.py:86 | reading back `f"{n:02}"` gives n, and for 0..99 the text has two characters |
| WinTimeDisplay.ParseClockText | roundRobin/models.py:83-86 | reading back the text written for t seconds gives t // 60 minutes and t % 60 seconds |
| WinTimeDisplay.DisplayDenotesAverage | roundRobin/models.py:78-86 | the display always parses as a clock whose minutes times 60 plus seconds equal the average win time in whole seconds, with seconds in 0..59; below a hundred minutes the text is exactly five characters, two-digit minutes and seconds |
| WinTimeDisplay.ZeroDisplay | roundRobin/models.py:78-82 | "00:00" is shown exactly when the average truncates to zero whole seconds, so always for a player without wins |
| Series.NewGame | roundRobin/models.py:184-220 | a new game is not processed and has no win condition |
| Series.AtMostThreeGames | roundRobin/models.py:193-196 | game numbers drawn from 1..3 and unique within a series allow at most three games |
| Series.Match.constructor | roundRobin/models.py:140-167 | a new series is scheduled, with the given players, round and time, no winner and no games |
| Series.SeriesWinRate | roundRobin/models.py:111-117 | zero when no series was played; otherwise the rate times series played equals 100 times series won |
| Series.SeriesPlayed | roundRobin/models.py:88-98 | counts the completed series with the player as player1 or player2; `UncompletedDoNotCount` states that other series add nothing |
| Series.SeriesWins | roundRobin/models.py:100-104 | counts the completed series the player won; `UncompletedDoNotCount` and `SeriesWinsWithinPlayed` bound it |
| Series.SeriesLosses | roundRobin/models.py:106-109 | series played minus series won, never negative when series winners take part, as `SeriesWinsWithinPlayed` states |
| Series.UncompletedDoNotCount | roundRobin/models.py:88-104 | a series that is not completed does not change any series count |
| Series.SeriesWinsWithinPlayed | roundRobin/models.py:88-117 | when series winners are among the players, series wins never exceed series played, losses are never negative and the win rate lies in 0..100 |
| SeriesAdmin.SettleAll | roundRobin/admin.py:121-149 | after processing, no game is pending; each pending game is marked processed with the win condition of its duration; the other games are untouched; no game's winner, number, duration or farms change |
| SeriesAdmin.Pending | roundRobin/admin.py:107 | a game is picked up iff it has a winner and is not processed; `NothingPendingNothingChanges` and `ProcessedOnce` state what follows from it |
| SeriesAdmin.Settle | roundRobin/admin.py:129-132 | a settled game is no longer pending; a pending game is marked processed with its duration's win condition (admin.py:148), any other game is unchanged, and no winner, number, duration or farm changes |
| SeriesAdmin.ApplyPending | roundRobin/admin.py:121-146 | applying the pending games keeps the player table's keys |
| SeriesAdmin.ApplyGame | roundRobin/admin.py:124-146 | one pending game's two `add_match_result` calls, the winner's then the loser's, with each side's farm; `ProcessGame` is proved to leave the table this function gives, and `ApplyPendingTally`, `ApplyPendingFrame` and `RecordedConditionAgreesWithStats` state its effect |
| SeriesAdmin.ProcessGame | roundRobin/admin.py:124-149 | one loop iteration settles exactly game i and leaves the table as the winner's and then the loser's result applied |
| SeriesAdmin.ProcessAll | roundRobin/admin.py:121-149 | the loop leaves the games as `SettleAll` of the old games and the table as `ApplyPending` of the old table, with the series fields unchanged |
| SeriesAdmin.SaveRelated | roundRobin/admin.py:92-164 | nothing changes unless the series is completed and is either edited or has a pending game; otherwise every pending game is settled and applied once, and the series winner is set by the two-wins rule |
| SeriesAdmin.ApplyPendingTally | roundRobin/admin.py:121-146 | each player ends with one more win per pending game they won and one more loss per pending game they lost |
| SeriesAdmin.ApplyPendingFrame | roundRobin/admin.py:124-146 | consistent records stay consistent, and when the winners are the series' players nobody else's record changes |
| SeriesAdmin.NothingPendingNothingChanges | roundRobin/admin.py:107-111 | with no pending game, processing changes neither the games nor any player |
| SeriesAdmin.ProcessedOnce | roundRobin/admin.py:107 | processing the settled games again settles nothing and changes no player: each game is counted once |
| SeriesAdmin.SameWinnersSameWins | roundRobin/admin.py:154-155 | game wins depend on the game winners alone |
| SeriesAdmin.SettleKeepsWinner | roundRobin/admin.py:154-162 | the series winner is the same whether computed on the games before or after processing |
| SeriesAdmin.GameWinsDisjoint | roundRobin/admin.py:154-155 | two distinct players together win no more games than the series has |
| SeriesAdmin.GameWins | roundRobin/admin.py:154-155 | a player wins at most as many games as the series has |
| SeriesAdmin.SeriesWinner | roundRobin/admin.py:154-162 | a winner is one of the two players with at least two game wins; nobody wins when neither has two; player2 wins only when player1 has fewer than two |
| SeriesAdmin.SeriesWinnerRule | roundRobin/admin.py:157-162 | in a well-numbered series, the winner is player1 iff player1 won two games, player2 iff player2 did, and nobody iff neither did |
| SeriesAdmin.RecordedConditionAgreesWithStats | roundRobin/admin.py:129-146 | the win condition recorded on a game is Farm iff the winner gains a farm win, and FirstBlood iff the winner gains a first-blood win iff the loser gains a death |
| SeriesAdmin.ReadonlyFields | roundRobin/admin.py:83-88 | the series winner is always read-only; the players, round and scheduled time are read-only iff the edited series is completed; the status never is |
| SeriesAdmin.EditingRaisesAsWritten | roundRobin/admin.py:84 | as written, the read-only lookup raises AttributeError iff an existing series is being edited; on creation it agrees with the corrected fields |
| SeriesAdmin.ReadonlyFieldsAsWritten | roundRobin/admin.py:83-88 | the read-only lookup as written, reading `STATUS_COMPLETED` from the `Match` class; `EditingRaisesAsWritten` states when it raises |
| SeriesAdmin.SaveRelatedAsWritten | roundRobin/admin.py:103 | as written, saving a series raises AttributeError on `STATUS_COMPLETED`, whatever the series |
| SeriesAdmin.ThreeInOrder | roundRobin/admin.py:121 | three pending games are applied one after another, in list order |
| SeriesAdmin.BestOfThreeStats | roundRobin/admin.py:121-146 | after a 2-1 series from fresh players, the two records are exactly the counts, farms and win times the game results add up to |
| SeriesAdmin.BestOfThreeWinner | roundRobin/admin.py:154-162 | that series is won by player1, and all three games end processed |
| SeriesAdmin.BestOfThreeScenario | roundRobin/admin.py:92-164 | saving the completed series sets the winner and the players' counters and marks every game processed; a second save leaves the games, the series winner and both players' rows unchanged |
| SingleMatch.AfterProcessing | ipx1/roundRobin/models.py:210-221 | whatever step fails, the player table keeps its keys |
| SingleMatch.FaultEffects | ipx1/roundRobin/models.py:210-221 | a full run gives the winner's and the loser's result; a failure in the loser's update leaves an unbalanced extra win; an earlier failure changes nobody; outsiders never change |
| SingleMatch.Match.constructor | ipx1/roundRobin/models.py:148-187 | a new match holds the given players, winner, duration and farms, and no win condition |
| SingleMatch.Match.ProcessMatchResults | ipx1/roundRobin/models.py:194-221 | without a winner nothing changes; otherwise the win condition is the duration's classification and the table has the results of the steps that ran; failure is reported iff a step failed |
| SingleMatch.ProcessedOutcome | ipx1/roundRobin/models.py:200-221 | with distinct players and a winner among them, the winner gets one winning result with their own farm, the other player one losing result with theirs, and nobody else changes |
| SingleMatch.CreateAndProcess | ipx1/roundRobin/management/commands/run_full_test.py:63-73 | creating a decided match and processing it records the duration's win condition and applies both results to the table |
| SingleMatch.FullTestScenario | ipx1/roundRobin/management/commands/run_full_test.py:63-117 | the three games of the full-test command, with each player's row read from the table after each processing, give the counters and win conditions the code computes, including the third game's side swap that credits A with player2's farm |
| SingleMatch.PlayerTestScenario | ipx1/roundRobin/management/commands/run_player_test.py:33-78 | the four results of the player-test command give farm 170, 200 and 350, an average win time of 12m30s that later losses keep, and win rates of 200/3 and 50 |
| SingleMatchAdmin.SaveModel | ipx1/roundRobin/admin.py:105-129 | a match with a winner and no recorded win condition is processed, and success or the caught error is reported; any other match is left alone with no report; afterwards a match with a winner is never due again |
| SingleMatchAdmin.DueForProcessing | ipx1/roundRobin/admin.py:116 | a match is due iff it has a winner and no recorded win condition; `SaveModel` and `SaveTwice` state that processing makes it no longer due |
| SingleMatchAdmin.SaveTwice | ipx1/roundRobin/admin.py:116 | saving the same match twice processes it at most once: players, winner, duration and farms are kept, the win condition is the duration's classification if the match was due and unchanged otherwise, the second save of a decided match reports nothing and leaves the table as the first save did, and a match not due at the first save leaves the table unchanged with no message from either save |
| SingleMatchAdmin.ReadonlyFields | ipx1/roundRobin/admin.py:93-103 | created_at and win_condition are always read-only; every field is read-only iff an existing match with a winner is edited; otherwise exactly those two are |
| Views.InsertSorted | roundRobin/views.py:17-29 | inserting a player into a list sorted by the key keeps it sorted |
| Views.InsertPermutes | roundRobin/views.py:17-29 | inserting adds exactly that player and loses no other |
| Views.SortByIsStableSort | roundRobin/views.py:17-29 | for any key, the sort is a permutation of its input, sorted by the key, and keeps the input order among equal keys |
| Views.InsertStable | roundRobin/views.py:17-29 | insertion keeps the relative order of the players with any given key |
| Views.Key | roundRobin/views.py:19-28 | the three-part key; `LeaderboardOrder` states its componentwise reading |
| Views.SortBy | roundRobin/views.py:17-29 | `sorted()` on a key; `SortByIsStableSort` states that it is a stable sort |
| Views.Leaderboard | roundRobin/views.py:12-29 | every player sorted by `Key`; `LeaderboardIsStableSort` and `LeaderboardOrder` state its permutation, order and stability |
| Views.LeaderboardIsStableSort | roundRobin/views.py:12-29 | the leaderboard is a permutation of all players, sorted by the key, with the input order kept among equal keys |
| Views.LeaderboardOrder | roundRobin/views.py:19-28 | down the leaderboard, wins never increase; with equal wins, the average win time never decreases; with both equal, the kill/death balance never increases |
| Views.GroupRoundsSpec | roundRobin/views.py:47-55 | the grouping lists each round from 1 to the bound that has a match, once, in increasing order, with exactly that round's matches |
| Views.MatchList | roundRobin/views.py:42-55 | the loop builds one entry per round from 1 to TOTAL_ROUNDS that has a match, in round order, each holding exactly that round's matches, and none for a round without one |
| Views.InRoundSpec | roundRobin/views.py:49 | the matches of a round come from the list and are from that round, and there are some iff the list has one |
| Views.MatchListComplete | roundRobin/views.py:47-55 | every listed match of a round from 1 to TOTAL_ROUNDS appears under its round |
| Views.InRoundHas | roundRobin/views.py:49 | a match of the list is among the matches of its own round |
| Views.InRound | roundRobin/views.py:49 | a round's matches are no more than the list's; `InRoundSpec` and `InRoundHas` state that they are exactly the list's matches of that round |
| Views.GroupRounds | roundRobin/views.py:47-55 | the grouping of rounds 1 to a bound; `GroupRoundsSpec` states its entries, their order and completeness |
| Views.MatchListViewAsWritten | roundRobin/views.py:57-63 | as written, the view raises AttributeError on `STATUS_COMPLETED`, whatever the matches |
| Views.TemplateStatuses | roundRobin/views.py:61-63 | read from the module, the three status constants handed to the template are completed, live and scheduled |

## Left out

- Persistence is not modelled: Django's ORM, `F()` expressions, `save`, `refresh_from_db` and migrations. The stored rows are the `PlayerTable` map and the `games` sequence, and a row update replaces the map entry.
- Transactions are modelled only through their outcome. In ipx1, each failing player update is rolled back by its own atomic block while earlier steps stay applied: the `Fault` parameter. Rolling back `save_related` on an exception is the as-written members' "nothing changes". Storage failures inside `save_related` are not modelled.
- Concurrency between admin requests is not modelled. The `F()` increments only make the counters commute, which `Stats.ResultsCommute` states.
- Floating point is not modelled: `winrate` and `series_winrate` are exact ratios, and `timedelta.total_seconds()` is computed exactly before truncation.
- Counters edited by hand in roundRobin's player editor (roundRobin/admin.py:9-12 declares no read-only fields) are not modelled. The game counters are taken as non-negative, as `add_match_result` keeps them from the zero defaults. With hand-edited negative or inconsistent counters the source's win rate can leave 0..100, which `Stats.WinRate` does not cover.
- The 32- and 64-bit limits of the database integer columns are not modelled (integers are unbounded).
- User interface and text are not modelled: `__str__`, admin fieldsets, list displays, the `GameInline` form and its `max_num`, message texts, templates and URL routing. `livestream_view` only renders a page, and ipx1/roundRobin/views.py is only database ordering, filtering and rendering.
- `save_related`'s success notice (roundRobin/admin.py:166-169) is a message to the user and is not modelled.
- The management commands are not modelled as programs, only as the scenarios above. run_player_test.py reads `p.loses` (lines 22 and 35), which `Player` does not define, so that command would stop with AttributeError before its first result; only its expected values are modelled.
- Undoing processed results (the "reversal" the comments mention) does not exist in the source and is not modelled.
- SeriesAdmin.SaveRelated: requires every pending game of a completed series to have a duration and a stored winner (`Processable`). For a completed series, a null duration makes the source raise `TypeError` when comparing it with the farm limit. That roll-back path is not modelled separately. A series that is not completed is not constrained, since the source returns before reading any duration.
- An empty-string win condition, which the source's `not obj.win_condition` treats like none, is modelled only as `None`.
- After a failure at the win-condition save in ipx1, the in-memory win condition is set even though the stored one may not be. The model keeps the in-memory value.
- The database orderings (`order_by('round_number', 'scheduled_time')`, `Player.objects.all()`, `Meta.ordering`) are taken as the order of the input sequences.

## Findings

| source | as written | input that shows it | evidently intended | confidence | as-written member | corrected member |
|---|---|---|---|---|---|---|
| roundRobin/admin.py:84 | `obj.status == Match.STATUS_COMPLETED`; the status constants are module-level, and `Match` has no such attribute | opening any existing series in the admin editor | compare with the module constant `STATUS_COMPLETED` | not executed | SeriesAdmin.EditingRaisesAsWritten | SeriesAdmin.ReadonlyFields |
| roundRobin/admin.py:103 | `obj.status != Match.STATUS_COMPLETED` in `save_related` | saving any series with its games | compare with the module constant, so that completed series are processed | not executed | SeriesAdmin.SaveRelatedAsWritten | SeriesAdmin.SaveRelated |
| roundRobin/views.py:61-63 | `Match.STATUS_COMPLETED`, `Match.STATUS_LIVE` and `Match.STATUS_SCHEDULED` passed to the template | any request to the match list, even with no matches | pass the module constants | not executed | Views.MatchListViewAsWritten | Views.TemplateStatuses |
