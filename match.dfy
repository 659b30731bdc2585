/**
 * One match between bot programs: the arena's turn loop, with each bot
 * process replaced by what the arena observes of it during a turn.
 */
module MatchEngine {
  import opened Wrappers
  import opened Text
  import opened Sequences
  import opened WondevWoman
  import opened GameAdapter

  /** (turn, stdout_stream, stderr_stream, message, input_flag, output_flag), kept for a player that failed. */
  datatype IssueLog = IssueLog(turn: int, stdout: seq<String>, stderr: seq<String>, message: String, inputFlag: bool, outputFlag: bool)

  /** (turn, line): a warning a bot wrote on stderr. */
  datatype WarningEntry = WarningEntry(turn: int, line: String)

  /**
   * What the arena observes of the current player's process in one turn:
   * whether writing its input failed (a broken pipe), the lines it wrote on
   * stdout and stderr, and the clock readings, in ticks, taken after the
   * input was written and after its output was read.
   */
  datatype Exchange = Exchange(inputFailed: bool, stdout: seq<String>, stderr: seq<String>, inputTime: int, outputTime: int)

  // ---------------------------------------------------------------------
  // Warnings on stderr
  // ---------------------------------------------------------------------

  /** A stderr line the arena reports: not blank, and the line or its first word is a warning code. */
  predicate IsWarningLine(line: String) {
    var r := RStrip(line);
    r != [] && (r in Warnings || Words(r)[0] in Warnings)
  }

  /**
   * The entries one call of process_players_errors adds: one per distinct
   * reported line, in the order the lines first appear.
   */
  function NewWarnings(turn: int, stderr: seq<String>): seq<WarningEntry> {
    if stderr == [] then []
    else
      var prev := NewWarnings(turn, stderr[..|stderr| - 1]);
      var line := stderr[|stderr| - 1];
      var w := WarningEntry(turn, RStrip(line));
      if IsWarningLine(line) && w !in prev then prev + [w] else prev
  }

  /** Some line of stderr is reported and reads `line` once trailing whitespace is stripped. */
  ghost predicate Reported(stderr: seq<String>, line: String) {
    exists k :: 0 <= k < |stderr| && IsWarningLine(stderr[k]) && RStrip(stderr[k]) == line
  }

  /** A line is reported by stderr when it is reported by all but the last line, or by the last line. */
  lemma ReportedSnoc(stderr: seq<String>, line: String)
    requires stderr != []
    ensures var last := stderr[|stderr| - 1];
      Reported(stderr, line) <==>
        Reported(stderr[..|stderr| - 1], line) || (IsWarningLine(last) && RStrip(last) == line)
  {
    hide IsWarningLine, RStrip;
    var init := stderr[..|stderr| - 1];
    if Reported(stderr, line) {
      var k :| 0 <= k < |stderr| && IsWarningLine(stderr[k]) && RStrip(stderr[k]) == line;
      if k < |init| {
        assert init[k] == stderr[k];
      }
    }
    if Reported(init, line) {
      var k :| 0 <= k < |init| && IsWarningLine(init[k]) && RStrip(init[k]) == line;
      assert stderr[k] == init[k];
    }
  }

  lemma NoneReported(line: String)
    ensures !Reported([], line)
  {
  }

  /** The added entries are the reported lines of this turn, each exactly once. */
  lemma {:induction false} NewWarningsSpec(turn: int, stderr: seq<String>)
    ensures NoDup(NewWarnings(turn, stderr))
    ensures forall w :: w in NewWarnings(turn, stderr) <==> w.turn == turn && Reported(stderr, w.line)
  {
    hide Reported, IsWarningLine, RStrip;
    if stderr == [] {
      forall w: WarningEntry ensures !Reported(stderr, w.line) {
        NoneReported(w.line);
      }
    } else {
      var init := stderr[..|stderr| - 1];
      NewWarningsSpec(turn, init);
      forall w ensures w in NewWarnings(turn, stderr) <==> w.turn == turn && Reported(stderr, w.line) {
        ReportedSnoc(stderr, w.line);
      }
    }
  }

  /** The loop of process_players_errors, with the warning set kept as a list of distinct entries. */
  method CollectWarnings(turn: int, stderr: seq<String>) returns (found: seq<WarningEntry>)
    ensures found == NewWarnings(turn, stderr)
  {
    found := [];
    var i := 0;
    while i < |stderr|
      invariant 0 <= i <= |stderr|
      invariant found == NewWarnings(turn, stderr[..i])
    {
      assert stderr[..i + 1][..i] == stderr[..i];
      var line := RStrip(stderr[i]);
      if IsWarningLine(stderr[i]) {
        var w := WarningEntry(turn, line);
        if w !in found {
          found := found + [w];
        }
      }
      i := i + 1;
    }
    assert stderr[..|stderr|] == stderr;
  }

  // ---------------------------------------------------------------------
  // Turn times
  // ---------------------------------------------------------------------

  function Sum(ts: seq<int>): int {
    if ts == [] then 0 else Sum(ts[..|ts| - 1]) + ts[|ts| - 1]
  }

  /** The largest of 0 and the given times: max_times starts at 0 and only grows. */
  function Max0(ts: seq<int>): int {
    if ts == [] then 0
    else
      var m := Max0(ts[..|ts| - 1]);
      if m < ts[|ts| - 1] then ts[|ts| - 1] else m
  }

  lemma {:induction false} Max0Bounds(ts: seq<int>)
    ensures Max0(ts) >= 0
    ensures forall k :: 0 <= k < |ts| ==> ts[k] <= Max0(ts)
    ensures Max0(ts) == 0 || Max0(ts) in ts
  {
    if ts != [] {
      var init := ts[..|ts| - 1];
      Max0Bounds(init);
      forall k | 0 <= k < |init| ensures ts[k] == init[k] { }
    }
  }

  /** No time exceeds the maximum, so their sum is at most count * maximum. */
  lemma {:induction false} SumAtMostMax(ts: seq<int>)
    ensures Sum(ts) <= |ts| * Max0(ts)
  {
    if ts != [] {
      var init := ts[..|ts| - 1];
      SumAtMostMax(init);
      Max0Bounds(init);
      Max0Bounds(ts);
      ScaleBound(|init|, Max0(init), Max0(ts));
    }
  }

  /** n * a <= n * b when a <= b, and one more b makes (n + 1) * b. */
  lemma {:induction false} ScaleBound(n: nat, a: int, b: int)
    requires a <= b
    ensures n * a <= n * b && n * b + b == (n + 1) * b
  {
    if n > 0 {
      ScaleBound(n - 1, a, b);
    }
  }

  /**
   * The timing fields of one player against the times of its turns after
   * the first: turns counts every turn, sum and max only the timed ones.
   */
  ghost predicate TimesAgree(sum: int, max: int, turns: nat, timed: seq<int>) {
    && |timed| == (if turns == 0 then 0 else turns - 1)
    && sum == Sum(timed)
    && max == Max0(timed)
  }

  // ---------------------------------------------------------------------
  // Ranking by score
  // ---------------------------------------------------------------------

  function ScoreKey(scores: seq<int>, p: nat): int {
    if p < |scores| then scores[p] else 0
  }

  /** key=lambda p: scores[p] */
  function ByScore(scores: seq<int>): (nat, nat) -> bool {
    (p: nat, q: nat) => ScoreKey(scores, p) <= ScoreKey(scores, q)
  }

  lemma ByScoreTotalPreorder(scores: seq<int>)
    ensures TotalPreorder(ByScore(scores))
  {
    var le := ByScore(scores);
    forall p: nat, q: nat ensures le(p, q) || le(q, p) { }
    forall p: nat, q: nat, r: nat | le(p, q) && le(q, r) ensures le(p, r) { }
  }

  /**
   * sorted(range(n), key=lambda p: scores[p]): every player once, lowest
   * score first, and players with equal scores in player order, since
   * Python's sort is stable.
   */
  function RankByScore(scores: seq<int>, n: nat): (order: seq<nat>)
    ensures IsPermutationOfRange(order, n)
    ensures SortedBy(order, ByScore(scores))
    ensures forall i, j :: 0 <= i < j < |order| && ScoreKey(scores, order[i]) == ScoreKey(scores, order[j]) ==>
      order[i] < order[j]
  {
    ByScoreTotalPreorder(scores);
    SortBySorted(Range(n), ByScore(scores));
    RangeIndex(n);
    SortByStable(Range(n), ByScore(scores));
    SortBy(Range(n), ByScore(scores))
  }

  /** Reading a ranking from the back lists the players from the highest score down. */
  lemma HighestFirst(order: seq<nat>, scores: seq<int>)
    requires SortedBy(order, ByScore(scores))
    ensures forall i, j :: 0 <= i < j < |order| ==>
      ScoreKey(scores, Reverse(order)[i]) >= ScoreKey(scores, Reverse(order)[j])
  {
    var r := Reverse(order);
    ReverseAt(order);
    forall i, j | 0 <= i < j < |order|
      ensures ScoreKey(scores, r[i]) >= ScoreKey(scores, r[j])
    {
      assert ByScore(scores)(order[|order| - 1 - j], order[|order| - 1 - i]);
    }
  }

  /** The players of `order` whose process is still running, in that order. */
  function LiveOnly(order: seq<nat>, live: seq<bool>): (r: seq<nat>)
    ensures forall p :: p in r <==> p in order && p < |live| && live[p]
  {
    if order == [] then []
    else
      var rest := LiveOnly(order[..|order| - 1], live);
      var p := order[|order| - 1];
      assert order == order[..|order| - 1] + [p];
      if p < |live| && live[p] then rest + [p] else rest
  }

  lemma {:induction false} LiveOnlyNoDup(order: seq<nat>, live: seq<bool>)
    requires NoDup(order)
    ensures NoDup(LiveOnly(order, live))
  {
    if order != [] {
      var init := order[..|order| - 1];
      var p := order[|order| - 1];
      assert NoDup(init) by {
        forall i, j | 0 <= i < j < |init| ensures init[i] != init[j] {
          assert init[i] == order[i] && init[j] == order[j];
        }
      }
      LiveOnlyNoDup(init, live);
      assert p !in init by {
        forall k | 0 <= k < |init| ensures init[k] != p {
          assert init[k] == order[k];
        }
      }
    }
  }

  /** Exactly the players that are no longer running are in the loss order, each once. */
  predicate LossAgrees(n: nat, live: seq<bool>, lossOrder: seq<nat>)
    requires |live| == n
  {
    && NoDup(lossOrder)
    && (forall k :: 0 <= k < |lossOrder| ==> lossOrder[k] < n)
    && (forall p :: 0 <= p < n ==> (!live[p] <==> p in lossOrder))
  }

  /** Killing a running player keeps the loss order in step with the stopped processes. */
  lemma KillKeepsLoss(n: nat, live: seq<bool>, lossOrder: seq<nat>, p: nat)
    requires |live| == n && LossAgrees(n, live, lossOrder) && p < n && live[p]
    ensures LossAgrees(n, live[p := false], lossOrder + [p])
  {
    var loss := lossOrder + [p];
    forall i, j | 0 <= i < j < |loss| ensures loss[i] != loss[j] {
      if j == |lossOrder| {
        assert loss[i] == lossOrder[i];
      }
    }
    forall q | 0 <= q < n ensures (!live[p := false][q] <==> q in loss) {
      assert q in loss <==> q in lossOrder || q == p;
    }
  }

  lemma AllRunningNoLoss(n: nat, live: seq<bool>, lossOrder: seq<nat>)
    requires |live| == n && LossAgrees(n, live, lossOrder)
    requires forall p :: 0 <= p < n ==> live[p]
    ensures lossOrder == []
  {
    FirstIn(lossOrder);
  }

  /** Every player's timing fields agree with its timed turns. */
  ghost predicate TimesAgreeAll(n: nat, sums: seq<int>, maxs: seq<int>, turns: seq<nat>, timed: seq<seq<int>>)
    requires |sums| == n && |maxs| == n && |turns| == n && |timed| == n
  {
    forall p :: 0 <= p < n ==> TimesAgree(sums[p], maxs[p], turns[p], timed[p])
  }

  /** What record_times does to one player's fields keeps them in agreement. */
  lemma RecordKeepsTimes(sum: int, max: int, turns: nat, timed: seq<int>, t: int)
    requires TimesAgree(sum, max, turns, timed)
    ensures turns == 0 ==> TimesAgree(sum, max, turns + 1, timed)
    ensures turns > 0 ==> TimesAgree(sum + t, if max < t then t else max, turns + 1, timed + [t])
  {
    assert (timed + [t])[..|timed|] == timed;
  }

  // ---------------------------------------------------------------------
  // The match
  // ---------------------------------------------------------------------

  /** Match: the state of one match, including which player processes are still running. */
  class Match {
    const idNumber: int
    const playerCount: nat
    const game: Game
    var turn: int
    var currentPlayer: int
    /** live[p] is false once player_processes[p] has been set to None. */
    var live: seq<bool>
    var lossOrder: seq<nat>
    var issueLogs: seq<Option<IssueLog>>
    var warnings: seq<seq<WarningEntry>>
    var sumTimes: seq<int>
    var maxTimes: seq<int>
    var playerTurns: seq<nat>
    /** The response times of each player's turns after its first. */
    ghost var turnTimes: seq<seq<int>>

    /**
     * One entry per player in every list; the loss order holds each killed
     * player once and nobody else; the timing fields agree with the turn
     * times recorded so far.
     */
    ghost predicate Valid()
      reads this, game
    {
      game.Valid() && Bookkept()
    }

    /** The match's own fields, without the game. */
    ghost predicate Bookkept()
      reads this
    {
      && 1 <= playerCount <= 2
      && |live| == playerCount && |issueLogs| == playerCount && |warnings| == playerCount
      && |sumTimes| == playerCount && |maxTimes| == playerCount && |playerTurns| == playerCount
      && |turnTimes| == playerCount
      && LossAgrees(playerCount, live, lossOrder)
      && TimesAgreeAll(playerCount, sumTimes, maxTimes, playerTurns, turnTimes)
    }

    /**
     * Match.__init__ with `players` bot programs (the game admits one or
     * two) and a configuration Game.__init__ accepts; the map draws are given.
     */
    constructor (id: int, config: String, players: nat, draws: MapDraws)
      requires 1 <= players <= 2
      requires ParseConfig(config).Some? && 0 <= ParseConfig(config).value.mapIndex < 3
      requires DrawsFit(ParseConfig(config).value, draws)
      ensures Valid() && fresh(game)
      ensures idNumber == id && playerCount == players
      ensures turn == -1 && currentPlayer == 0 && lossOrder == []
      ensures game.board == InitialBoard(ParseConfig(config).value, draws)
      ensures forall p :: 0 <= p < players ==>
        && live[p] && issueLogs[p] == None && warnings[p] == []
        && sumTimes[p] == 0 && maxTimes[p] == 0 && playerTurns[p] == 0
    {
      idNumber := id;
      playerCount := players;
      game := new Game(config, draws);
      turn := -1;
      currentPlayer := 0;
      live := seq(players, _ => true);
      lossOrder := [];
      issueLogs := seq(players, _ => None);
      warnings := seq(players, _ => []);
      sumTimes := seq(players, _ => 0);
      maxTimes := seq(players, _ => 0);
      playerTurns := seq(players, _ => 0);
      turnTimes := seq(players, _ => []);
    }

    /** kill_player: close a running player's process and record its loss. */
    method KillPlayer(p: nat)
      requires Valid() && p < playerCount && live[p]
      modifies this
      ensures Valid()
      ensures live == old(live)[p := false] && lossOrder == old(lossOrder) + [p]
      ensures turn == old(turn) && currentPlayer == old(currentPlayer)
      ensures issueLogs == old(issueLogs) && warnings == old(warnings)
      ensures sumTimes == old(sumTimes) && maxTimes == old(maxTimes) && playerTurns == old(playerTurns)
      ensures turnTimes == old(turnTimes)
    {
      KillKeepsLoss(playerCount, live, lossOrder, p);
      live := live[p := false];
      lossOrder := lossOrder + [p];
    }

    /** process_players_errors: file this turn's warnings under the current player. */
    method ProcessPlayersErrors(stderr: seq<String>)
      requires Valid() && 0 <= currentPlayer < playerCount
      modifies this
      ensures Valid()
      ensures turn == old(turn) && currentPlayer == old(currentPlayer)
      ensures warnings == old(warnings)[currentPlayer := old(warnings)[currentPlayer] + NewWarnings(turn, stderr)]
      ensures live == old(live) && lossOrder == old(lossOrder) && issueLogs == old(issueLogs)
      ensures sumTimes == old(sumTimes) && maxTimes == old(maxTimes) && playerTurns == old(playerTurns)
      ensures turnTimes == old(turnTimes)
    {
      var found := CollectWarnings(turn, stderr);
      warnings := warnings[currentPlayer := warnings[currentPlayer] + found];
    }

    /**
     * record_times: count the current player's turn, and from its second
     * turn on add the response time to its sum and maximum.
     */
    method RecordTimes(inputTime: int, outputTime: int)
      requires Valid() && 0 <= currentPlayer < playerCount
      modifies this
      ensures Valid()
      ensures turn == old(turn) && currentPlayer == old(currentPlayer)
      ensures playerTurns == old(playerTurns)[currentPlayer := old(playerTurns)[currentPlayer] + 1]
      ensures turnTimes == if old(playerTurns)[currentPlayer] == 0 then old(turnTimes)
        else old(turnTimes)[currentPlayer := old(turnTimes)[currentPlayer] + [outputTime - inputTime]]
      ensures forall q :: 0 <= q < playerCount && q != currentPlayer ==>
        sumTimes[q] == old(sumTimes)[q] && maxTimes[q] == old(maxTimes)[q]
      ensures live == old(live) && lossOrder == old(lossOrder) && issueLogs == old(issueLogs)
      ensures warnings == old(warnings)
    {
      var p := currentPlayer;
      var t := outputTime - inputTime;
      RecordKeepsTimes(sumTimes[p], maxTimes[p], playerTurns[p], turnTimes[p], t);
      if playerTurns[p] > 0 {
        sumTimes := sumTimes[p := sumTimes[p] + t];
        if maxTimes[p] < t {
          maxTimes := maxTimes[p := t];
        }
        turnTimes := turnTimes[p := turnTimes[p] + [t]];
      }
      playerTurns := playerTurns[p := playerTurns[p] + 1];
    }

    /**
     * The bookkeeping part of one_turn, once the output has been validated:
     * file the warnings, record the time, and take the player out with an
     * issue log if writing its input failed or its output was rejected.
     */
    method RecordTurn(ex: Exchange, message: String, issue: bool)
      requires Valid() && 0 <= currentPlayer < playerCount && live[currentPlayer]
      modifies this
      ensures Valid()
      ensures turn == old(turn) && currentPlayer == old(currentPlayer)
      ensures ex.inputFailed || issue ==>
        && live == old(live)[currentPlayer := false]
        && lossOrder == old(lossOrder) + [currentPlayer]
        && issueLogs == old(issueLogs)[currentPlayer := Some(IssueLog(turn, ex.stdout, ex.stderr, message, ex.inputFailed, issue))]
      ensures !ex.inputFailed && !issue ==>
        live == old(live) && lossOrder == old(lossOrder) && issueLogs == old(issueLogs)
      ensures warnings == old(warnings)[currentPlayer := old(warnings)[currentPlayer] + NewWarnings(turn, ex.stderr)]
      ensures playerTurns == old(playerTurns)[currentPlayer := old(playerTurns)[currentPlayer] + 1]
      ensures turnTimes == if old(playerTurns)[currentPlayer] == 0 then old(turnTimes)
        else old(turnTimes)[currentPlayer := old(turnTimes)[currentPlayer] + [ex.outputTime - ex.inputTime]]
      ensures forall q :: 0 <= q < playerCount && q != currentPlayer ==>
        sumTimes[q] == old(sumTimes)[q] && maxTimes[q] == old(maxTimes)[q]
    {
      hide NewWarnings, TimesAgreeAll, Game.Valid, LossAgrees;
      ProcessPlayersErrors(ex.stderr);
      RecordTimes(ex.inputTime, ex.outputTime);
      if ex.inputFailed || issue {
        KillPlayer(currentPlayer);
        issueLogs := issueLogs[currentPlayer := Some(IssueLog(turn, ex.stdout, ex.stderr, message, ex.inputFailed, issue))];
      }
    }

    /**
     * one_turn: play one turn of the player the game says is to move. A
     * failed write or a rejected output takes the player out and keeps an
     * issue log; the output is then played if the game is still on.
     */
    method OneTurn(ex: Exchange)
      requires Valid()
      requires game.CurrentPlayer() < playerCount && live[game.CurrentPlayer()]
      modifies this, game
      ensures Valid()
      ensures turn == old(turn) + 1 && currentPlayer == old(game.CurrentPlayer())
      ensures var v := old(game.ValidateOutput(ex.stdout));
        && (ex.inputFailed || v.issue ==>
              && live == old(live)[currentPlayer := false]
              && lossOrder == old(lossOrder) + [currentPlayer]
              && issueLogs == old(issueLogs)[currentPlayer := Some(IssueLog(turn, ex.stdout, ex.stderr, v.message, ex.inputFailed, v.issue))])
        && (!ex.inputFailed && !v.issue ==>
              live == old(live) && lossOrder == old(lossOrder) && issueLogs == old(issueLogs))
        && game.board == (if old(game.IsActive()) then AfterOutput(old(game.board), old(game.turn), v.action) else old(game.board))
      ensures warnings == old(warnings)[currentPlayer := old(warnings)[currentPlayer] + NewWarnings(turn, ex.stderr)]
      ensures playerTurns == old(playerTurns)[currentPlayer := old(playerTurns)[currentPlayer] + 1]
      ensures turnTimes == if old(playerTurns)[currentPlayer] == 0 then old(turnTimes)
        else old(turnTimes)[currentPlayer := old(turnTimes)[currentPlayer] + [ex.outputTime - ex.inputTime]]
      ensures forall q :: 0 <= q < playerCount && q != currentPlayer ==>
        sumTimes[q] == old(sumTimes)[q] && maxTimes[q] == old(maxTimes)[q]
    {
      hide Wf, NewWarnings, AfterOutput, LossAgrees, TimesAgreeAll, ActionStrings, LegalActions, ActiveOf;
      turn := turn + 1;
      currentPlayer := game.CurrentPlayer();
      // Writing game.TurnInputs(currentPlayer) to the bot is abstracted: ex.inputFailed says whether it failed.
      var v := game.ValidateOutput(ex.stdout);
      RecordTurn(ex, v.message, v.issue);
      if game.IsActive() {
        game.ProcessOutput(currentPlayer, v.action);
      }
    }

    /** remaining_players_in_order: every starting player, lowest score first. */
    function RemainingPlayersInOrder(): (order: seq<nat>)
      reads this, game
      requires Valid()
      ensures IsPermutationOfRange(order, playerCount)
      ensures SortedBy(order, ByScore(game.ScoreGame()))
      ensures forall i, j :: 0 <= i < j < |order| && ScoreKey(game.ScoreGame(), order[i]) == ScoreKey(game.ScoreGame(), order[j]) ==>
        order[i] < order[j]
    {
      RankByScore(game.ScoreGame(), playerCount)
    }

    /** kill_player on each player of `order` in turn; each must still be running. */
    method KillAll(order: seq<nat>)
      requires Valid() && NoDup(order)
      requires forall k :: 0 <= k < |order| ==> order[k] < playerCount && live[order[k]]
      modifies this
      ensures Valid()
      ensures lossOrder == old(lossOrder) + order
      ensures forall p :: 0 <= p < playerCount ==> (live[p] <==> old(live)[p] && p !in order)
    {
      var k := 0;
      while k < |order|
        invariant Valid() && 0 <= k <= |order|
        invariant lossOrder == old(lossOrder) + order[..k]
        invariant forall p :: 0 <= p < playerCount ==> (live[p] <==> old(live)[p] && p !in order[..k])
      {
        assert order[..k + 1] == order[..k] + [order[k]];
        assert order[k] !in order[..k];
        KillPlayer(order[k]);
        k := k + 1;
      }
      assert order[..k] == order;
    }

    /** kill_player on the players of `order` that are still running, in that order. */
    method KillRunning(order: seq<nat>)
      requires Valid() && NoDup(order)
      requires forall k :: 0 <= k < |order| ==> order[k] < playerCount
      modifies this
      ensures Valid()
      ensures lossOrder == old(lossOrder) + LiveOnly(order, old(live))
      ensures forall p :: 0 <= p < playerCount ==> (live[p] <==> old(live)[p] && p !in order)
    {
      var k := 0;
      while k < |order|
        invariant Valid() && 0 <= k <= |order|
        invariant lossOrder == old(lossOrder) + LiveOnly(order[..k], old(live))
        invariant forall p :: 0 <= p < playerCount ==> (live[p] <==> old(live)[p] && p !in order[..k])
      {
        var p := order[k];
        assert order[..k + 1] == order[..k] + [p];
        assert order[..k + 1][..k] == order[..k];
        if live[p] {
          KillPlayer(p);
        }
        k := k + 1;
      }
      assert order[..k] == order;
    }

    /**
     * end_of_game as written: kill every starting player in score order.
     * Each kill needs a running process, so this is only defined when
     * nobody was taken out during the match.
     */
    method EndOfGame()
      requires Valid()
      requires forall p :: 0 <= p < playerCount ==> live[p]
      modifies this
      ensures Valid()
      ensures lossOrder == old(RemainingPlayersInOrder())
      ensures forall p :: 0 <= p < playerCount ==> !live[p]
    {
      hide RankByScore, Game.ScoreGame, ByScore;
      var order := RemainingPlayersInOrder();
      PermutationOfRangeFacts(order, playerCount);
      AllRunningNoLoss(playerCount, live, lossOrder);
      KillAll(order);
    }

    /**
     * end_of_game as evidently intended: kill, in score order, only the
     * players still running, so every player ends up in the loss order once.
     */
    method EndOfGameRemaining()
      requires Valid()
      modifies this
      ensures Valid()
      ensures lossOrder == old(lossOrder) + LiveOnly(old(RemainingPlayersInOrder()), old(live))
      ensures forall p :: 0 <= p < playerCount ==> !live[p] && p in lossOrder
    {
      hide RankByScore, Game.ScoreGame, ByScore;
      var order := RemainingPlayersInOrder();
      PermutationOfRangeFacts(order, playerCount);
      KillRunning(order);
    }

    /** The average reported for player p: sum_times / player_turns, or 0 before its first turn. */
    function AverageTime(p: nat): (ave: real)
      reads this, game
      requires Valid() && p < playerCount
      ensures playerTurns[p] == 0 ==> ave == 0.0
      ensures playerTurns[p] > 0 ==> ave * playerTurns[p] as real == Sum(turnTimes[p]) as real
    {
      if playerTurns[p] > 0 then sumTimes[p] as real / playerTurns[p] as real else 0.0
    }

    /** The mean of the timed turns: the sum over the turns after the first, divided by their number. */
    function MeanTurnTime(p: nat): (mean: real)
      reads this, game
      requires Valid() && p < playerCount
      ensures |turnTimes[p]| == 0 ==> mean == 0.0
      ensures |turnTimes[p]| > 0 ==> mean * |turnTimes[p]| as real == Sum(turnTimes[p]) as real
    {
      if playerTurns[p] > 1 then sumTimes[p] as real / (playerTurns[p] - 1) as real else 0.0
    }
  }

  /** The mean of the timed turns never exceeds the reported maximum. */
  lemma MeanAtMostMax(m: Match, p: nat)
    requires m.Valid() && p < m.playerCount
    ensures m.MeanTurnTime(p) <= m.maxTimes[p] as real
  {
    var ts := m.turnTimes[p];
    SumAtMostMax(ts);
    Max0Bounds(ts);
    if |ts| > 0 {
      var k, s, mx := |ts| as real, Sum(ts) as real, Max0(ts) as real;
      assert s <= k * mx;
      assert m.MeanTurnTime(p) == s / k;
    }
  }

  /**
   * The reported average divides by every turn, the untimed first one
   * included, so for a player with positive time it is below the mean of
   * the turns that were timed.
   */
  lemma AverageUndercounts(m: Match, p: nat)
    requires m.Valid() && p < m.playerCount
    requires m.playerTurns[p] > 1 && m.sumTimes[p] > 0
    ensures m.AverageTime(p) < m.MeanTurnTime(p)
  {
    var s, n := m.sumTimes[p] as real, m.playerTurns[p] as real;
    assert m.AverageTime(p) == s / n;
    assert m.MeanTurnTime(p) == s / (n - 1.0);
  }

  /**
   * end_of_game ranks all starting players, so once a player has been taken
   * out during the match its already closed process is killed again.
   */
  lemma EndOfGameReachesKilledPlayer(m: Match, p: nat)
    requires m.Valid() && p < m.playerCount && !m.live[p]
    ensures p in m.RemainingPlayersInOrder() && p in m.lossOrder
  {
    PermutationOfRangeFacts(m.RemainingPlayersInOrder(), m.playerCount);
  }

  /**
   * When the loss order is the score ranking, as EndOfGame leaves it, the
   * results reported (the loss order reversed) go from the highest score down.
   */
  lemma ResultsHighestFirst(m: Match)
    requires m.Valid() && m.lossOrder == m.RemainingPlayersInOrder()
    ensures var r := Reverse(m.lossOrder);
      forall i, j :: 0 <= i < j < |r| ==> r[i] < 2 && r[j] < 2 && ScoreOf(m.game.board, r[i]) >= ScoreOf(m.game.board, r[j])
  {
    var scores := m.game.ScoreGame();
    HighestFirst(m.lossOrder, scores);
    PermutationOfRangeFacts(m.lossOrder, m.playerCount);
    var r := Reverse(m.lossOrder);
    ReverseAt(m.lossOrder);
    forall i, j | 0 <= i < j < |r|
      ensures r[i] < 2 && r[j] < 2 && ScoreOf(m.game.board, r[i]) >= ScoreOf(m.game.board, r[j])
    {
      assert r[i] in m.lossOrder && r[j] in m.lossOrder;
      assert ScoreKey(scores, r[i]) >= ScoreKey(scores, r[j]);
    }
  }

  /**
   * A player taken out for a rejected output also leaves the game: playing
   * no action makes the mover inactive, so one_turn is not asked to play
   * for its stopped process again.
   */
  lemma RejectedMoverLeaves(b: BoardState, turn: int)
    requires Wf(b)
    ensures !ActiveOf(AfterOutput(b, turn, None), b.currentPlayerId)
  {
    NextBoardStateIllegal(b, None);
  }
}
