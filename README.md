# codingame_arena, modelled in Dafny

codingame_arena plays bot programs against each other in the CodinGame game
Wondev Woman, and keeps tournament statistics. This project models the four
parts of it that carry logic:

- **The match turn engine** (`cg_arena/match.py`, module `MatchEngine`,
  `match.dfy`). A `Match` class holds the turn counter, which player
  processes are still running, the loss order, the issue logs, the warning
  lists and the timing fields. `OneTurn` plays one turn. It is built from
  `ProcessPlayersErrors`, `RecordTimes`, `KillPlayer` and the game's
  `ProcessOutput`. `EndOfGame` ranks the players by score and kills them in
  that order. A bot process is replaced by what the arena observes of it in
  one turn (an `Exchange`): whether writing its input failed, its stdout and
  stderr lines, and two clock readings.
- **The tournament** (`cg_arena/tournament.py`, module `TournamentRunner`,
  `tournament.dfy`):
  - Round generation: the first drawn seat order that is not all one bot,
    then its `num_bots` rotations, which share one configuration string.
  - The per-match statistics: wins, placements, totals by arity, and the
    error and warning id lists.
  - The loop over all matches, which closes a round when its results differ
    and then updates the `diff_*` tables.
  - The random draws are parameters, and so is the way each match ended.
- **The game adapter** (`cg_arena/game/__init__.py`, module `GameAdapter`,
  `game.dfy`):
  - the `mapIndex=M;seed=S` configuration string and its parse;
  - the starting board;
  - `validate_output`;
  - the 400-turn cap of `process_output`;
  - the side remapping of `score_game`.
- **The Wondev Woman rules** (`cg_arena/game/ww/__init__.py`, module
  `WondevWoman`, `wondev.dfy`):
  - grid geometry and visibility;
  - legal-action generation;
  - the board transition;
  - the text sent to a bot each turn.

  The numpy grid with its −1 padding becomes a square `Grid` and a total
  `Height` that is −1 outside the board.

Helper modules:

- `Text` (`text.dfy`): Python's `rstrip`, `split`, `join`, `int`/`str` and
  string order.
- `Sequences` (`sequences.dfy`): duplicate-free sequences, reversal, and a
  stable insertion sort over a total preorder.
- `Wrappers` (`wrappers.dfy`): `Option`.

## Model

| member | source | states |
|---|---|---|
| MatchEngine.Match.constructor | cg_arena/match.py:14-67 | One slot per player: all running, no issue log, no warnings, zero timing fields. Turn −1, current player 0, empty loss order. The game is built from the configuration. |
| MatchEngine.Match.KillPlayer | cg_arena/match.py:69-81 | Requires a running slot. Only that slot stops, the player is appended to the loss order once, and every other field is unchanged. |
| MatchEngine.KillKeepsLoss | cg_arena/match.py:76-81 | If the loss order holds exactly the stopped players, each once, it still does after a running player is killed. |
| MatchEngine.NewWarningsSpec | cg_arena/match.py:180-185 | The entries added for one turn are duplicate-free, and an entry is added iff it is (turn, line) for a stderr line that is non-blank after rstrip and whose text or first word is a warning code. |
| MatchEngine.CollectWarnings | cg_arena/match.py:180-184 | The loop over stderr builds exactly the entries NewWarnings describes. |
| MatchEngine.ReportedSnoc | cg_arena/match.py:181-184 | A line is reported by the stream iff it is reported by all but the last line, or by the last line. |
| MatchEngine.Match.ProcessPlayersErrors | cg_arena/match.py:170-185 | The current player's warning list is extended by this turn's entries. No other player's list changes, and nothing else changes. |
| MatchEngine.Match.RecordTimes | cg_arena/match.py:196-204 | The player's turn count rises by 1. The first call adds no time. Later calls add the time to that player's sum and max. Other players' sum and max are unchanged, and the timing invariant is kept. |
| MatchEngine.RecordKeepsTimes | cg_arena/match.py:198-204 | record_times keeps sum = the total, and max = the largest of 0 and the times of the turns after the first. |
| MatchEngine.Max0Bounds | cg_arena/match.py:201-202 | The running maximum is at least 0, is at least every time, and is 0 or one of the times. |
| MatchEngine.SumAtMostMax | cg_arena/match.py:199-202 | The sum of the timed turns is at most their count times the maximum. |
| MatchEngine.Match.RecordTurn | cg_arena/match.py:283-289 | Warnings and times are recorded as above. A failed write or a rejected output stops the player, appends it to the loss order and overwrites its issue log with (turn, stdout, stderr, message, input flag, output flag). Otherwise the loss order and issue logs are unchanged. |
| MatchEngine.Match.OneTurn | cg_arena/match.py:261-295 | The turn rises by 1, and the current player is the game's. Issue, kill and log happen iff the write failed or validate_output flags an issue. The same warning and timing effects as RecordTurn hold. The validated action is played iff the game is still active after the possible kill. |
| MatchEngine.RejectedMoverLeaves | cg_arena/match.py:285-294 | Playing no action makes the mover inactive on the board, so a player taken out for its output is not to move again. |
| MatchEngine.RankByScore | cg_arena/match.py:305 | sorted(range(n), key=score) gives a permutation of 0..n−1 that never decreases in score, with equal scores in player order (Python's sort is stable). |
| MatchEngine.Match.RemainingPlayersInOrder | cg_arena/match.py:299-305 | Every starting player (not only the running ones), lowest score first, with ties in player order. |
| MatchEngine.HighestFirst | cg_arena/match.py:319 | Read from the back, a score-sorted ranking goes from the highest score down. |
| MatchEngine.Match.KillAll | cg_arena/match.py:314-315 | kill_player on each listed player in turn. The loss order gains the list, and exactly those players stop. |
| MatchEngine.Match.EndOfGame | cg_arena/match.py:307-315 | As written: defined only when nobody was killed earlier. The loss order becomes the score ranking, and every player is stopped. |
| MatchEngine.EndOfGameReachesKilledPlayer | cg_arena/match.py:299-315 | A player killed during the match is in both the ranking and the loss order, so end_of_game would kill its closed process again. |
| MatchEngine.Match.KillRunning | cg_arena/match.py:314-315 | Kills only the listed players that are still running, in list order. The loss order gains exactly those players. |
| MatchEngine.LiveOnlyNoDup | cg_arena/match.py:314-315 | Keeping the running players of a duplicate-free list leaves it duplicate-free. |
| MatchEngine.Match.EndOfGameRemaining | cg_arena/match.py:307-315 | As intended: the still-running players are killed in score order, and afterwards every player is stopped and in the loss order. |
| MatchEngine.ResultsHighestFirst | cg_arena/match.py:319 | When the loss order is the score ranking, the results (loss order reversed) are players of the game, highest score first. |
| MatchEngine.Match.AverageTime | cg_arena/match.py:320-323 | The reported average is 0 before the first turn. Otherwise average × turns equals the sum of the timed turns. |
| MatchEngine.Match.MeanTurnTime | cg_arena/match.py:320-324 | The mean over the timed turns only: 0 when there are none, otherwise mean × count equals their sum. |
| MatchEngine.MeanAtMostMax | cg_arena/match.py:320-324 | The mean of the timed turns never exceeds the reported max. |
| MatchEngine.AverageUndercounts | cg_arena/match.py:321 | With two or more turns and a positive sum, the reported average is strictly below the true mean, because it divides by a count that includes the untimed first turn. |
| GameAdapter.ConfigRoundTrip | cg_arena/game/__init__.py:36-55 | For a seed in 0..2^32−1, a string written as "mapIndex=M;seed=S" parses back to the same M and S. |
| GameAdapter.SplitKeyValue | cg_arena/game/__init__.py:54-55 | "k=v" without other '=' splits into [k, v]. |
| GameAdapter.RandomConfiguration | cg_arena/game/__init__.py:23-40 | For draws M < 3 and S < 2^32, the string parses back to (M, S). |
| GameAdapter.MapGrid | cg_arena/game/__init__.py:61-94 | Each map is a square of side 5, 7 or 6. |
| GameAdapter.MapGridCells | cg_arena/game/__init__.py:61-94 | Every cell has height 0 or −1. Ground exactly: map 0 the whole square, map 1 the diamond, map 2 the square minus the drawn hole, its mirror image and the zero-draw cells. |
| GameAdapter.Map2Symmetric | cg_arena/game/__init__.py:85-93 | Map 2 is symmetric across the rows: a cell and its mirror are both holes or both ground. |
| GameAdapter.InitialBoard | cg_arena/game/__init__.py:96-109 | Four distinct start units on ground cells: two for player 0, then two for player 1. Scores 0, turn 0, player 0 to move, both players active. |
| GameAdapter.Game.constructor | cg_arena/game/__init__.py:42-109 | The game is valid, keeps the configuration string, has turn 0 and the map size, two units per player, and the initial board. |
| GameAdapter.Game.InitInputs | cg_arena/game/__init__.py:111-124 | [size, units per player], and each player has that many units. |
| GameAdapter.Game.IsActive | cg_arena/game/__init__.py:126-130 | True iff some player is still active. |
| GameAdapter.Game.CurrentPlayer | cg_arena/game/__init__.py:132-136 | The board's current player id: the player whose units, score and activity the board holds as its own side. |
| GameAdapter.Game.TurnInputs | cg_arena/game/__init__.py:138-147 | A one-element list holding the board's turn text. |
| GameAdapter.Game.ValidateOutput | cg_arena/game/__init__.py:149-197 | Issue iff there is no action. A passed action has an empty message and is ACCEPT-DEFEAT or a legal action's string. Empty output gives the crash message. A rejected line's message starts "played " + the rstripped line. |
| GameAdapter.ValidateIssueIff | cg_arena/game/__init__.py:180-195 | For non-empty output: issue iff the first line has no words, or its first word is not a move name, or it is not ACCEPT-DEFEAT and its first four words joined by spaces are not a legal action's string. |
| GameAdapter.ValidateCleanedForm | cg_arena/game/__init__.py:180-191 | The action passed on is ACCEPT-DEFEAT, or the first four words of the first line joined by single spaces, whatever blanks surround them. |
| GameAdapter.ValidateAcceptsLegal | cg_arena/game/__init__.py:190-197 | A legal action's string, optionally followed by a space-started message and more lines, is passed on as that string with no issue. |
| GameAdapter.ValidateAcceptDefeat | cg_arena/game/__init__.py:188-189 | A first line whose first word is ACCEPT-DEFEAT yields ("ACCEPT-DEFEAT", "", no issue). |
| GameAdapter.AcceptDefeatNotAnAction | cg_arena/game/__init__.py:188-189 | ACCEPT-DEFEAT is never a legal action's string, so playing it takes the player out. |
| GameAdapter.FirstFour | cg_arena/game/__init__.py:191 | move[:4] is a prefix of length min(4, \|move\|). |
| GameAdapter.ActionThenMessage | cg_arena/game/__init__.py:180-191 | The first four words of an action's text followed by a message are the action's type, index and two directions. |
| GameAdapter.Game.ProcessOutput | cg_arena/game/__init__.py:199-211 | The board becomes the next board state for the action. The turn rises by 1. From turn 400 on, the game is not active. |
| GameAdapter.Game.ScoreGame | cg_arena/game/__init__.py:213-219 | Two entries. Entry p is player p's score, whichever side is to move (the XOR with current_player_id). |
| WondevWoman.DirNameRoundTrip | cg_arena/game/ww/__init__.py:16-23 | A direction's name reads back as that direction and is a single word. |
| WondevWoman.DirectionsComplete | cg_arena/game/ww/__init__.py:16-23 | The direction list has all eight directions. |
| WondevWoman.UnitDistMetric | cg_arena/game/ww/__init__.py:67-68 | unit_dist is symmetric, is 0 only between equal positions, obeys the triangle inequality, and is ≤ 1 iff both coordinates differ by at most 1 (Chebyshev distance). |
| WondevWoman.MoveByNeighbours | cg_arena/game/ww/__init__.py:62-68 | move_by in any direction lands at distance exactly 1, and every position at distance 1 is move_by of some direction. |
| WondevWoman.ActionRoundTrip | cg_arena/game/ww/__init__.py:47-55 | Parsing str(action) back gives the same action. |
| WondevWoman.ActionWords | cg_arena/game/ww/__init__.py:54-55 | str(action) splits into exactly type, index, dir_1 and dir_2. |
| WondevWoman.ActionStringInjective | cg_arena/game/ww/__init__.py:54-55 | Two actions with the same string are equal. |
| WondevWoman.ActionLeTotalPreorder | cg_arena/game/ww/__init__.py:156 | Ordering actions by their string is a total preorder. |
| WondevWoman.ActionStrings | cg_arena/game/ww/__init__.py:96 | [str(a) for a in legal_actions]: same length, entry by entry. |
| WondevWoman.FindByString | cg_arena/game/ww/__init__.py:96-101 | A string among the action strings belongs to a listed action. |
| WondevWoman.Raise | cg_arena/game/ww/__init__.py:114-123 | On-board +1: exactly that cell rises by one, and the shape is unchanged. |
| WondevWoman.SwappedKeepsPlayers | cg_arena/game/ww/__init__.py:99-129 | Swapping sides keeps each player's units, score and activity. |
| WondevWoman.MinDistBounds | cg_arena/game/ww/__init__.py:84 | The min over own units is attained by some unit and is a lower bound for all of them. |
| WondevWoman.VisibleIff | cg_arena/game/ww/__init__.py:82-84 | is_visible iff the unit is within distance 1 of some own unit. |
| WondevWoman.FilterVisibleMember | cg_arena/game/ww/__init__.py:77 | The filter keeps exactly the visible units. |
| WondevWoman.VisibleOpsMember | cg_arena/game/ww/__init__.py:77-84 | visible_units[1] holds exactly the opponent units within distance 1 of an own unit. |
| WondevWoman.HideUnitsSpec | cg_arena/game/ww/__init__.py:76 | io_units keeps a visible opponent unit and replaces an invisible one with (−1, −1), position by position. |
| WondevWoman.IoOpUnits | cg_arena/game/ww/__init__.py:76 | One entry per opponent unit. |
| WondevWoman.RawActionsMember | cg_arena/game/ww/__init__.py:133-154 | The generated actions are exactly those of a unit index in range that the rules allow for that unit. |
| WondevWoman.UnitActionsMember | cg_arena/game/ww/__init__.py:135-154 | A unit's actions over the listed first directions are exactly its legal ones with those directions. |
| WondevWoman.DirActionsMember | cg_arena/game/ww/__init__.py:136-154 | For one first direction: a push when a visible opponent is there, otherwise a move if the step is allowed. |
| WondevWoman.PushActionsMember | cg_arena/game/ww/__init__.py:140-145 | A push is generated iff its second direction is among the options and the push target is allowed. |
| WondevWoman.MoveActionsMember | cg_arena/game/ww/__init__.py:148-154 | A move is generated iff its build cell is the vacated cell, or a free cell of height 0..3. |
| WondevWoman.LegalActionsCharacterization | cg_arena/game/ww/__init__.py:131-157 | An action is in legal_actions iff the rules allow it. |
| WondevWoman.LegalActionsExact | cg_arena/game/ww/__init__.py:131-157 | The same, for every action at once. |
| WondevWoman.LegalActionsSorted | cg_arena/game/ww/__init__.py:156 | legal_actions is sorted by string and is a permutation of the generated list. |
| WondevWoman.LegalMoveBuild | cg_arena/game/ww/__init__.py:146-154 | A MOVE&BUILD first step has no visible opponent, height 0..min(3, h+1), and no own unit. Its build cell is allowed. |
| WondevWoman.LegalPushBuild | cg_arena/game/ww/__init__.py:137-145 | A PUSH&BUILD first step hits a visible opponent unit, and its second direction is one of PUSH_DIR_2_OPTIONS. |
| WondevWoman.AppendPushes | cg_arena/game/ww/__init__.py:140-145 | The push loop appends exactly PushActions. |
| WondevWoman.AppendMoves | cg_arena/game/ww/__init__.py:148-154 | The build loop appends exactly MoveActions. |
| WondevWoman.AppendUnitActions | cg_arena/game/ww/__init__.py:135-154 | The direction loop appends exactly UnitActions. |
| WondevWoman.GenerateActions | cg_arena/game/ww/__init__.py:132-154 | The unit loop builds RawActions, in append order. |
| WondevWoman.MyLegalActions | cg_arena/game/ww/__init__.py:131-157 | The sorted result equals legal_actions, and holds exactly the actions the rules allow. |
| WondevWoman.LegalBuildsOnBoard | cg_arena/game/ww/__init__.py:114-123 | The cells a legal action raises are on the board. |
| WondevWoman.BuiltWf | cg_arena/game/ww/__init__.py:103-123 | Playing a legal action keeps the board well formed, its sizes, the turn, the mover and activity. |
| WondevWoman.Advance | cg_arena/game/ww/__init__.py:100-129 | A legal action gives a well-formed state with turn + 1 and the same shape. |
| WondevWoman.NextBoardState | cg_arena/game/ww/__init__.py:86-129 | Every next state is well formed, has turn + 1 and the same shape. |
| WondevWoman.NextBoardStateIllegal | cg_arena/game/ww/__init__.py:96-99 | A string that is not a legal action leaves grid, units and scores unchanged, deactivates the mover and flips current_player_id. |
| WondevWoman.NextBoardStateLegal | cg_arena/game/ww/__init__.py:96-101 | A legal action's string is recognised and that action is played. |
| WondevWoman.ParseFindsLegal | cg_arena/game/ww/__init__.py:101 | Action(*s.split()) on a legal action's string is that action. |
| WondevWoman.NextBoardStateKeepsInactive | cg_arena/game/ww/__init__.py:93-129 | Once both players are out, no transition brings either back. |
| WondevWoman.AdvanceTurnOrder | cg_arena/game/ww/__init__.py:125-129 | After a legal action, sides swap and the id flips iff the opponent is active. Nobody's activity changes. |
| WondevWoman.AdvanceMoveBuild | cg_arena/game/ww/__init__.py:115-123 | The unit moves to first_pos. The mover scores 1 iff that cell has height 3. second_pos rises by 1 unless an opponent unit is on it. The opponent is unchanged. |
| WondevWoman.AdvancePushBuild | cg_arena/game/ww/__init__.py:107-114 | If second_pos holds an opponent unit, nothing changes. Otherwise the pushed unit goes to second_pos and first_pos rises by 1. Scores are unchanged. |
| WondevWoman.GridRows | cg_arena/game/ww/__init__.py:160-168 | One row per y. |
| WondevWoman.InputRow | cg_arena/game/ww/__init__.py:162-168 | The row loop writes "." for a hole and the height otherwise. |
| WondevWoman.InputGrid | cg_arena/game/ww/__init__.py:159-169 | The rows are joined by newlines. |
| WondevWoman.GridRowsOneLine | cg_arena/game/ww/__init__.py:159-169 | No grid row contains a newline. |
| WondevWoman.UnitLinesOneLine | cg_arena/game/ww/__init__.py:176 | No unit line contains a newline. |
| WondevWoman.AppendUnitLines | cg_arena/game/ww/__init__.py:175-176 | The unit loop appends one "x y" line per unit. |
| WondevWoman.AppendActionLines | cg_arena/game/ww/__init__.py:178-179 | The action loop appends one line per legal action, in order. |
| WondevWoman.IoUnitLines | cg_arena/game/ww/__init__.py:174-176 | The unit lines are the mover's units, then the opponent's as sent. |
| WondevWoman.TurnInput | cg_arena/game/ww/__init__.py:171-181 | turn_input produces the turn text. |
| WondevWoman.TurnInputLayout | cg_arena/game/ww/__init__.py:159-181 | Split on newlines, the text has these lines in order: the grid rows, the mover's units, the opponent's (hidden ones as −1 −1), the count of legal actions (which parses back to that count), then exactly that many action strings. |
| TournamentRunner.FirstAccepted | cg_arena/tournament.py:45-46 | The first drawn seat order that is not all one bot; every earlier draw was all one bot. |
| TournamentRunner.DrawOrder | cg_arena/tournament.py:43-46 | The rejection loop returns that first accepted order, which is not all one bot. |
| TournamentRunner.Rotation | cg_arena/tournament.py:62 | One seat per entry of the seat order. |
| TournamentRunner.RotationAt | cg_arena/tournament.py:62 | Rotation i seats program_names[(order[j] + i) mod num_bots] at seat j. |
| TournamentRunner.SeatingsAt | cg_arena/tournament.py:60-63 | Config i is rotation i with the shared configuration string. |
| TournamentRunner.RoundSeatings | cg_arena/tournament.py:36-66 | A round has exactly num_bots configs. |
| TournamentRunner.Rotations | cg_arena/tournament.py:60-63 | The loop builds the num_bots rotations in order. |
| TournamentRunner.RoundFits | cg_arena/tournament.py:37-63 | Every config of a round seats arity programs of the pool. |
| TournamentRunner.Tournament.Arity | cg_arena/tournament.py:37-40 | game_arity when it is set (non-zero), and 2 otherwise. |
| TournamentRunner.Tournament.GenerateRandomConfigurations | cg_arena/tournament.py:36-66 | Returns the round that the draws determine. |
| TournamentRunner.Tournament.constructor | cg_arena/tournament.py:11-32 | Empty results. Zeroed wins, placements and totals (and the diff tables) for every program and arity 2..4. Empty id lists for every program. |
| TournamentRunner.Bump | cg_arena/tournament.py:93-97 | Incrementing a counter keeps the key set. |
| TournamentRunner.PlaceBumpsSpec | cg_arena/tournament.py:95-97 | Placement (name, arity, k) rises by 1 iff place k of this match is that program at that arity. No other cell changes. |
| TournamentRunner.StepCounts | cg_arena/tournament.py:91-97 | If the tables count wins, placements and totals over the matches so far, they still do after one more match. |
| TournamentRunner.StepWins | cg_arena/tournament.py:94 | Wins still count the matches each program won. |
| TournamentRunner.StepPlaces | cg_arena/tournament.py:95-97 | Placements still count the matches in which each program took each place. |
| TournamentRunner.StepTotals | cg_arena/tournament.py:93 | Totals still count the matches of each arity. |
| TournamentRunner.TallyOfCounts | cg_arena/tournament.py:91-97 | The tables after any sequence of matches count exactly those matches. |
| TournamentRunner.CountsSnoc | cg_arena/tournament.py:93-97 | One more match adds 1 to its winner's wins, to each program's place cell, and to its arity's total, and nothing else. |
| TournamentRunner.AddToTally | cg_arena/tournament.py:93-97 | The in-place updates give the one-match step. |
| TournamentRunner.AddPlacements | cg_arena/tournament.py:95-97 | The placement loop gives PlaceBumps. |
| TournamentRunner.WinsAddUp | cg_arena/tournament.py:94 | Summed over the programs, the wins equal the number of matches played. |
| TournamentRunner.SumWinsIsGames | cg_arena/tournament.py:94 | Each match's winner is counted exactly once. |
| TournamentRunner.WinnerHitsOnce | cg_arena/tournament.py:94 | A match adds 1 to the wins of exactly one program. |
| TournamentRunner.SeatIdsSpec | cg_arena/tournament.py:98-105 | Only the match id is added to a program's list, once for each flagged seat the program sat in (twice for a program flagged in two seats of a self-play match). |
| TournamentRunner.AppendIds | cg_arena/tournament.py:98-105 | The loop over seats appends the id once per flagged seat of that program, and keeps the keys. |
| TournamentRunner.ErrorIdsPerSeat | cg_arena/tournament.py:98-101 | A program's error list keeps its old ids and gains the match id once per seat it sat in whose issue log is set, and nothing else. |
| TournamentRunner.WarningIdsPerSeat | cg_arena/tournament.py:102-105 | A program's warning list keeps its old ids and gains the match id once per seat it sat in whose warning list is non-empty, and nothing else. |
| TournamentRunner.MatchFinishedFits | cg_arena/match.py:313-315 | A Match whose processes are all stopped (as end_of_game leaves it) gives play_game a loss order that is a permutation of its seats. |
| TournamentRunner.FinishedResultsFit | cg_arena/tournament.py:89-97 | The reversed loss order fits the seats and the tables' keys. |
| TournamentRunner.CountGame | cg_arena/tournament.py:89-105 | The tables take one step, the history gains the match, and the error and warning lists gain its id where flagged. |
| TournamentRunner.Tournament.PlayGame | cg_arena/tournament.py:89-105 | results gains the reversed loss order, and player_lists gains the player list. The tables are updated by Step, the id lists by AddIds, and consistency is kept. |
| TournamentRunner.RoundDiffersIff | cg_arena/tournament.py:123 | The round differs iff the set of its result tuples has more than one element. |
| TournamentRunner.CountRound | cg_arena/tournament.py:125-132 | The diff loop counts the round's matches in the diff tables and appends their results to diff_results. |
| TournamentRunner.CloseRound | cg_arena/tournament.py:121-132 | When the last num_bots results differ, games_to_look_at gains their id range, the diff tables count those matches and diff_results gains their results; otherwise all three are unchanged. |
| TournamentRunner.AfterRoundOf | cg_arena/tournament.py:123-132 | games_to_look_at gains (i−n+1 … i), and the diff matches gain the round, iff the round differs. Otherwise nothing changes. |
| TournamentRunner.IdRange | cg_arena/tournament.py:124 | tuple(range(lo, hi)): hi − lo ids, counting up from lo. |
| TournamentRunner.Tournament.CheckRound | cg_arena/tournament.py:121-132 | The round check, applied to the tournament state, keeping consistency. |
| TournamentRunner.Tournament.PlayMatch | cg_arena/tournament.py:118-132 | One match, then games_played + 1, then the round check when the pending list is empty. |
| TournamentRunner.Tournament.NextSeating | cg_arena/tournament.py:113-119 | A new round is generated only when the pending list is empty. The seating popped is match i's in the schedule, and the list empties exactly at a round's end. |
| TournamentRunner.PendingPop | cg_arena/tournament.py:119 | Popping from the end gives the next match of the schedule. |
| TournamentRunner.PendingRefill | cg_arena/tournament.py:116-117 | A fresh round refills the pending list with the next num_bots matches. |
| TournamentRunner.ScheduleAt | cg_arena/tournament.py:116-119 | Match j of round r is the round's configs read from the end. |
| TournamentRunner.ExpectedNext | cg_arena/tournament.py:110-132 | The state after i + 1 matches is one match step from the state after i. |
| TournamentRunner.Tournament.PlayTurn | cg_arena/tournament.py:110-132 | One iteration of the loop keeps the loop invariant for i + 1. |
| TournamentRunner.ExpectedAll | cg_arena/tournament.py:107-132 | After all matches: the history is the matches in schedule order, with games_played rising by their count. games_to_look_at lists the differing rounds, the diff matches are those rounds' matches, and the id lists are as flagged. |
| TournamentRunner.Tournament.PlayAllGames | cg_arena/tournament.py:107-132 | Plays number_of_games matches with ids 0..n−1, in schedule order. The final state is Expected, and both tally tables count their matches. |
| Sequences.SortByStable | cg_arena/match.py:305 | Sorting an increasing list keeps equal-key elements in increasing order (Python's sorted is stable). |
| Sequences.SortBySorted | cg_arena/match.py:305 | Insertion sort over a total preorder is sorted. |
| Sequences.PermutationFromCover | cg_arena/match.py:314-315 | A duplicate-free list of players below n that holds every player below n is a permutation of 0..n−1. |
| Text.WordsRStrip | cg_arena/game/__init__.py:180-181 | rstrip does not change the words of a line. |
| Text.WordsJoin | cg_arena/game/__init__.py:191 | Splitting words joined by single spaces gives back those words. |
| Text.SplitJoin | cg_arena/game/__init__.py:53-55 | Splitting on a separator undoes a join with it. |
| Text.IntRoundTrip | cg_arena/game/__init__.py:54-55 | int(str(i)) == i. |
| Text.RStrip | cg_arena/game/__init__.py:180 | rstrip removes exactly the trailing whitespace. |

## Left out

- Bot processes, pipes, reader threads and timeouts (cg_arena/process.py) are not part of this model. One turn of a bot is the `Exchange` it produced.
- Wall-clock times are integer ticks given with each `Exchange`. Averages are `real`, not floating point.
- Every `print_*` method, `pregame`'s output, `verbose`/`show_map` and the command line are display and glue, so they are not modelled.
- The random draws are parameters: `random.randrange` in the tournament (`RoundDraws`), the map index and seed, and numpy's map draws (`MapDraws`). numpy's generator itself is not modelled.
- The `time_limits` argument only selects a command-line option for the bot process, so it is not modelled.
- `Match.send_init_inputs_to_player`, `send_inputs_to_player` and `read_player_streams` are process I/O. Only the write-failure flag they return is kept.
- PlayGame (TournamentRunner.Tournament.PlayGame): the match itself (cg_arena/tournament.py:71-87) is not run inside it. Its outcome is the parameter `m`, and `MatchFinishedFits` connects that outcome to a `Match` whose processes are all stopped.
- PlayGame (TournamentRunner.Tournament.PlayGame): requires `|playerList| in Arities`. Outside 2..4, the source raises KeyError at cg_arena/tournament.py:93.
- FinishedFits (TournamentRunner.FinishedFits): admits arities 3 and 4, and PlayGame and PlayAllGames accept them. This game's Match has at most two players, and with three or four the source fails at `score_game()[2]` (cg_arena/match.py:305).
- DrawOrder (TournamentRunner.DrawOrder): requires that some draw is accepted. With one bot, every draw is all one bot, so the rejection loop at cg_arena/tournament.py:45-46 never ends, and that run is not modelled.
- PlayAllGames (TournamentRunner.Tournament.PlayAllGames): the diff player lists are kept in a ghost field. The source keeps only `diff_results` and the `diff_*` counters.
- OneTurn (MatchEngine.Match.OneTurn): requires that the game's current player is below playerCount and still running. This excludes two crashes of the source:
  - (a) Writing the input fails, but the first line is still a legal action. The bot is killed, and its move is then played (cg_arena/match.py:285-294), so it stays active on the board. On its next turn, `None.stdin` raises (cg_arena/match.py:126). `RejectedMoverLeaves` shows that a kill for a rejected output does take the player out of the game.
  - (b) In a one-player match (MIN_PLAYERS = 1), side 1 is still active after turn 0, so `player_processes[1]` raises IndexError (cg_arena/match.py:126).
- NewWarnings (MatchEngine.NewWarnings): the entries are added in the order the lines first appear. The source extends by iterating a Python set (cg_arena/match.py:185), whose order is unspecified. `NewWarningsSpec` states what is order-independent: the set of entries and that it has no duplicates.
- ParseConfig (GameAdapter.ParseConfig): uses a strict decimal parse (optional sign, then ASCII digits). Python's `int()` also accepts surrounding blanks, underscores between digits and non-ASCII digits (e.g. `"mapIndex= 1;seed=5"`, `"seed=1_0"`). Those strings are rejected here.
- constructor (GameAdapter.Game.constructor): requires a map index below 3. For other values the source leaves `grid` unset after the if/elif chain (cg_arena/game/__init__.py:61-89), and raises at cg_arena/game/__init__.py:96.
- constructor (GameAdapter.Game.constructor): requires a seed below 2^32 (numpy's `np.random.seed` raises otherwise), and draws that numpy could produce (`DrawsFit`).
- InputRow (WondevWoman.InputRow): each row is built by concatenation instead of by `"".join` of a list. The text is the same.

## Findings

| source | as written | input that shows it | evidently intended | confidence | as-written member | corrected member |
|---|---|---|---|---|---|---|
| cg_arena/match.py:307-315 | `end_of_game` calls `kill_player` on every starting player, including ones already killed during the match; `kill_player` calls `.kill()` on their `None` slot | a two-player match in which player 0's output is rejected on turn 0 (player 1 then plays on alone): end_of_game reaches player 0 and `None.kill()` raises AttributeError | kill only the players still running, in score order, so every player ends up in the loss order once | high; not executed | MatchEngine.Match.EndOfGame, MatchEngine.EndOfGameReachesKilledPlayer | MatchEngine.Match.EndOfGameRemaining |
