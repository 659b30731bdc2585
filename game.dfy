/**
 * The arena's game object for Wondev Woman: the configuration string, the
 * starting maps, checking a bot's output, and the per-turn interface the
 * match drives (inputs, moves, scores).
 */
module GameAdapter {
  import opened Wrappers
  import opened Text
  import opened Sequences
  import opened WondevWoman

  // ---------------------------------------------------------------------
  // Configuration strings
  // ---------------------------------------------------------------------

  datatype Config = Config(mapIndex: int, seed: int)

  /** numpy's random seed must fit in 32 unsigned bits. */
  const SeedBound: int := 0x1_0000_0000

  /** "mapIndex={};seed={}".format(map_index, seed) */
  function FormatConfig(c: Config): String {
    "mapIndex=" + IntToString(c.mapIndex) + ";seed=" + IntToString(c.seed)
  }

  /**
   * The parsing at the top of Game.__init__: exactly two ';'-separated parts,
   * the text after the first '=' of each read with int(), and a seed numpy
   * accepts. Whatever makes the source raise is None.
   */
  function ParseConfig(s: String): Option<Config> {
    var halves := SplitOn(s, ';');
    if |halves| != 2 then None
    else
      var m, sd := SplitOn(halves[0], '='), SplitOn(halves[1], '=');
      if |m| < 2 || |sd| < 2 then None
      else
        var mapIndex, seed := ParseInt(m[1]), ParseInt(sd[1]);
        if mapIndex.None? || seed.None? || !(0 <= seed.value < SeedBound) then None
        else Some(Config(mapIndex.value, seed.value))
  }

  lemma SplitKeyValue(key: String, value: String)
    requires '=' !in key && '=' !in value
    ensures SplitOn(key + "=" + value, '=') == [key, value]
  {
    SplitOnCons(key, value, '=');
    SplitOnWithoutSep(value, '=');
  }

  /** A configuration string written by the arena reads back as the same configuration. */
  lemma ConfigRoundTrip(c: Config)
    requires 0 <= c.seed < SeedBound
    ensures ParseConfig(FormatConfig(c)) == Some(c)
  {
    var mi, sd := IntToString(c.mapIndex), IntToString(c.seed);
    IntToStringExcludes(c.mapIndex, ';');
    IntToStringExcludes(c.mapIndex, '=');
    IntToStringExcludes(c.seed, ';');
    IntToStringExcludes(c.seed, '=');
    var first, second := "mapIndex" + "=" + mi, "seed" + "=" + sd;
    assert FormatConfig(c) == first + ";" + second;
    assert ';' !in first;
    assert ';' !in second;
    SplitOnCons(first, second, ';');
    SplitOnWithoutSep(second, ';');
    SplitKeyValue("mapIndex", mi);
    SplitKeyValue("seed", sd);
    IntRoundTrip(c.mapIndex);
    IntRoundTrip(c.seed);
  }

  /** Game.random_configuration, given the two draws rng.randrange(3) and rng.randrange(2**32). */
  function RandomConfiguration(mapDraw: nat, seedDraw: nat): (s: String)
    requires mapDraw < 3 && seedDraw < SeedBound
    ensures ParseConfig(s) == Some(Config(mapDraw, seedDraw))
  {
    ConfigRoundTrip(Config(mapDraw, seedDraw));
    FormatConfig(Config(mapDraw, seedDraw))
  }

  // ---------------------------------------------------------------------
  // Starting positions
  // ---------------------------------------------------------------------

  /**
   * What numpy draws while building a map: the hole of map 2 (x < 3, y < 6),
   * the cells where map 2's 1-in-70 draw came out 0, and the four distinct
   * start cells np.random.choice picks.
   */
  datatype MapDraws = MapDraws(holeX: int, holeY: int, zeros: set<Pos>, units: seq<Pos>)

  /** self.size for each map. */
  function MapSize(mapIndex: int): nat
    requires 0 <= mapIndex < 3
  {
    if mapIndex == 0 then 5 else if mapIndex == 1 then 7 else 6
  }

  /** A cell of map 2: removed when it or its mirror image across the rows is removed. */
  function Map2Cell(d: MapDraws, x: int, y: int): int {
    if Pos(x, y) == Pos(d.holeX, d.holeY) || Pos(5 - x, y) == Pos(d.holeX, d.holeY)
       || Pos(x, y) in d.zeros || Pos(5 - x, y) in d.zeros
    then -1 else 0
  }

  /** The playable cells of each map: map 0 flat, map 1 a diamond, map 2 flat with mirrored holes. */
  function MapGrid(mapIndex: int, d: MapDraws): (g: Grid)
    requires 0 <= mapIndex < 3
    ensures |g| == MapSize(mapIndex) && forall x :: 0 <= x < |g| ==> |g[x]| == |g|
  {
    var n := MapSize(mapIndex);
    seq(n, x requires 0 <= x < n =>
      seq(n, y requires 0 <= y < n =>
        if mapIndex == 0 then 0
        else if mapIndex == 1 then (if Abs(x - 3) + Abs(y - 3) <= 3 then 0 else -1)
        else Map2Cell(d, x, y)))
  }

  /** Every map is a square of ground-level cells and holes. */
  lemma MapGridCells(mapIndex: int, d: MapDraws, p: Pos)
    requires 0 <= mapIndex < 3
    ensures -1 <= Height(MapGrid(mapIndex, d), p) <= 0
    ensures Height(MapGrid(mapIndex, d), p) == 0 <==>
      (&& 0 <= p.x < MapSize(mapIndex) && 0 <= p.y < MapSize(mapIndex)
       && (mapIndex == 1 ==> Abs(p.x - 3) + Abs(p.y - 3) <= 3)
       && (mapIndex == 2 ==> Map2Cell(d, p.x, p.y) == 0))
  {
  }

  /** Map 2 is symmetric: a cell and its mirror image across the rows are both holes or both ground. */
  lemma Map2Symmetric(d: MapDraws, p: Pos)
    ensures Height(MapGrid(2, d), p) == Height(MapGrid(2, d), Pos(5 - p.x, p.y))
  {
    var g := MapGrid(2, d);
    if 0 <= p.x < 6 && 0 <= p.y < 6 {
      assert g[p.x][p.y] == Map2Cell(d, p.x, p.y);
      assert g[5 - p.x][p.y] == Map2Cell(d, 5 - p.x, p.y);
    }
  }

  /** The draws numpy can produce for this configuration. */
  predicate DrawsFit(c: Config, d: MapDraws)
    requires 0 <= c.mapIndex < 3
  {
    && 0 <= d.holeX < 3 && 0 <= d.holeY < 6
    && |d.units| == 4
    && NoDup(d.units)
    && forall u :: u in d.units ==> Height(MapGrid(c.mapIndex, d), u) == 0
  }

  /**
   * The board Game.__init__ builds: the first two drawn cells are player 0's
   * units, the last two player 1's; no score, turn 0, both players active.
   */
  function InitialBoard(c: Config, d: MapDraws): (b: BoardState)
    requires 0 <= c.mapIndex < 3 && DrawsFit(c, d)
    ensures Wf(b) && |b.grid| == MapSize(c.mapIndex)
    ensures |b.myUnits| == 2 && |b.opUnits| == 2 && NoDup(b.myUnits + b.opUnits)
    ensures forall u :: u in b.myUnits + b.opUnits ==> Height(b.grid, u) == 0
    ensures b.myScore == 0 && b.opScore == 0 && b.turn == 0 && b.currentPlayerId == 0
    ensures b.myActive && b.opActive
  {
    assert d.units == d.units[..2] + d.units[2..];
    BoardState(MapGrid(c.mapIndex, d), d.units[..2], d.units[2..], 0, 0, 0, true, true, 0)
  }

  // ---------------------------------------------------------------------
  // Checking a bot's output
  // ---------------------------------------------------------------------

  /** The triple (action_str, message, issue_flag) validate_output returns. */
  datatype Validation = Validation(action: Option<String>, message: String, issue: bool)

  const NoOutput: String := "did not provide any output. (CRASHED?)"

  /** An ACCEPT-DEFEAT is never the string of an action, so playing it always takes the player out. */
  lemma AcceptDefeatNotAnAction(b: BoardState)
    requires b.myUnits != []
    ensures "ACCEPT-DEFEAT" !in ActionStrings(LegalActions(b))
  {
    if "ACCEPT-DEFEAT" in ActionStrings(LegalActions(b)) {
      var legal := LegalActions(b);
      var i :| 0 <= i < |legal| && ActionStrings(legal)[i] == "ACCEPT-DEFEAT";
      ActionWords(legal[i]);
      assert false;
    }
  }

  /** move[:4] */
  function FirstFour(move: seq<String>): (r: seq<String>)
    ensures r <= move && |r| == if |move| <= 4 then |move| else 4
  {
    if |move| <= 4 then move else move[..4]
  }

  /** The first four words of an action's text, whatever the bot writes after it. */
  lemma ActionThenMessage(a: Action, suffix: String)
    requires suffix == [] || suffix[0] == ' '
    ensures FirstFour(Words(ActionString(a) + suffix)) == [TypeName(a.atype), IntToString(a.index), DirName(a.dir1), DirName(a.dir2)]
  {
    hide Join, Words, IntToString, TypeName, DirName;
    var parts := [TypeName(a.atype), IntToString(a.index), DirName(a.dir1), DirName(a.dir2)];
    if suffix == [] {
      ActionWords(a);
      assert ActionString(a) + suffix == ActionString(a);
    } else {
      TypeNameIsWord(a.atype);
      IntToStringIsWord(a.index);
      DirNameRoundTrip(a.dir1);
      DirNameRoundTrip(a.dir2);
      var t := suffix[1..];
      assert suffix == " " + t;
      assert ActionString(a) + suffix == Join(parts, " ") + " " + t;
      WordsJoinThen(parts, t);
      assert (parts + Words(t))[..4] == parts;
    }
  }

  /**
   * The board after process_output at game turn `turn`: the move is played,
   * and once the turn counter reaches 400 nobody is active any more.
   */
  function AfterOutput(b: BoardState, turn: int, actionStr: Option<String>): BoardState
    requires Wf(b)
  {
    var next := NextBoardState(b, actionStr);
    if turn + 1 == 400 then next.(myActive := false, opActive := false) else next
  }

  // ---------------------------------------------------------------------
  // The game object
  // ---------------------------------------------------------------------

  /** Game: one match of Wondev Woman between two players. */
  class Game {
    const configStr: String
    const size: nat
    const unitsPerPlayer: nat
    var board: BoardState
    var turn: int

    /** The board is well formed, has the announced sizes, and the game is over from turn 400 on. */
    ghost predicate Valid()
      reads this
    {
      && Wf(board)
      && |board.grid| == size
      && |board.myUnits| == unitsPerPlayer && |board.opUnits| == unitsPerPlayer
      && board.turn == turn
      && 0 <= turn
      && (turn >= 400 ==> !board.myActive && !board.opActive)
    }

    /** Game.__init__ for a configuration that does not make it raise; the random draws are given. */
    constructor (config: String, draws: MapDraws)
      requires ParseConfig(config).Some?
      requires 0 <= ParseConfig(config).value.mapIndex < 3
      requires DrawsFit(ParseConfig(config).value, draws)
      ensures Valid()
      ensures configStr == config && turn == 0
      ensures size == MapSize(ParseConfig(config).value.mapIndex) && unitsPerPlayer == 2
      ensures board == InitialBoard(ParseConfig(config).value, draws)
    {
      var c := ParseConfig(config).value;
      configStr := config;
      size := MapSize(c.mapIndex);
      unitsPerPlayer := 2;
      board := InitialBoard(c, draws);
      turn := 0;
    }

    /** init_inputs: the size of the map and the number of units each player has. */
    function InitInputs(player: int): (inputs: seq<int>)
      reads this
      requires Valid()
      ensures |inputs| == 2
      ensures inputs[0] == |board.grid|
      ensures forall p: PlayerId :: inputs[1] == |UnitsOf(board, p)|
    {
      [size, unitsPerPlayer]
    }

    /** is_active: some player is still in the game. */
    function IsActive(): (r: bool)
      reads this
      ensures r <==> exists p: PlayerId :: ActiveOf(board, p)
    {
      assert ActiveOf(board, board.currentPlayerId) == board.myActive;
      assert ActiveOf(board, Other(board.currentPlayerId)) == board.opActive;
      board.myActive || board.opActive
    }

    /** current_player: the id of the side the board state is oriented to. */
    function CurrentPlayer(): (p: PlayerId)
      reads this
      ensures p == board.currentPlayerId
      ensures UnitsOf(board, p) == board.myUnits && ScoreOf(board, p) == board.myScore && ActiveOf(board, p) == board.myActive
    {
      board.currentPlayerId
    }

    /** turn_inputs: one block of text, described line by line by TurnInputLayout. */
    method TurnInputs(player: int) returns (inputs: seq<String>)
      requires Valid()
      ensures inputs == [TurnText(board)]
    {
      var text := TurnInput(board);
      inputs := [text];
    }

    /**
     * validate_output: only the first line counts. An empty stream, an
     * unknown first word, or four words that are not a legal action are an
     * issue and yield no action; ACCEPT-DEFEAT and legal actions are passed on.
     */
    function ValidateOutput(stdout: seq<String>): (v: Validation)
      reads this
      requires Valid()
      ensures v.issue <==> v.action.None?
      ensures v.action.Some? ==> v.message == []
      ensures v.action.Some? ==> v.action.value == "ACCEPT-DEFEAT" || v.action.value in ActionStrings(LegalActions(board))
      ensures stdout == [] ==> v.message == NoOutput
      ensures stdout != [] && v.issue ==> "played " + RStrip(stdout[0]) <= v.message
    {
      if stdout == [] then Validation(None, NoOutput, true)
      else
        var raw := RStrip(stdout[0]);
        var move := Words(raw);
        if move == [] || move[0] !in Moves then
          Validation(None, "played " + raw + " which is not a valid move.", true)
        else if move[0] == "ACCEPT-DEFEAT" then
          Validation(Some("ACCEPT-DEFEAT"), [], false)
        else
          var actionStr := Join(FirstFour(move), " ");
          if actionStr !in ActionStrings(LegalActions(board)) then
            Validation(None, "played " + raw + " which is not in list of legal moves.", true)
          else
            Validation(Some(actionStr), [], false)
    }

    /** process_output: play the action, count the turn, and stop the game at turn 400. */
    method ProcessOutput(player: int, actionStr: Option<String>)
      requires Valid()
      modifies this
      ensures Valid()
      ensures turn == old(turn) + 1
      ensures board == AfterOutput(old(board), old(turn), actionStr)
      ensures turn >= 400 ==> !IsActive()
    {
      var next := NextBoardState(board, actionStr);
      if !board.myActive && !board.opActive {
        NextBoardStateKeepsInactive(board, actionStr);
      }
      board := next;
      turn := turn + 1;
      if turn == 400 {
        board := board.(myActive := false, opActive := false);
      }
    }

    /** score_game: entry p is player p's score, whichever side is to move. */
    function ScoreGame(): (scores: seq<int>)
      reads this
      ensures |scores| == 2
      ensures forall p: PlayerId :: scores[p] == ScoreOf(board, p)
    {
      var byside := [board.myScore, board.opScore];
      var c := board.currentPlayerId;
      [byside[Xor(0, c)], byside[Xor(1, c)]]
    }
  }

  /** A legal action is accepted, also when the bot attaches a message after it. */
  lemma ValidateAcceptsLegal(g: Game, a: Action, suffix: String, more: seq<String>)
    requires g.Valid() && IsLegal(g.board, a)
    requires suffix == [] || suffix[0] == ' '
    ensures g.ValidateOutput([ActionString(a) + suffix] + more) == Validation(Some(ActionString(a)), [], false)
  {
    hide Join, IntToString, DirName, LegalActions, NextBoardState, Advance, Words, RStrip;
    var line := ActionString(a) + suffix;
    ActionThenMessage(a, suffix);
    WordsRStrip(line);
    NextBoardStateLegal(g.board, a);
  }

  /** A resignation is passed on without an issue. */
  lemma ValidateAcceptDefeat(g: Game, line: String, more: seq<String>)
    requires g.Valid()
    requires Words(line) != [] && Words(line)[0] == "ACCEPT-DEFEAT"
    ensures g.ValidateOutput([line] + more) == Validation(Some("ACCEPT-DEFEAT"), [], false)
  {
    WordsRStrip(line);
  }

  /**
   * The verdict on a non-empty output depends only on the words of its first
   * line: it is an issue exactly when there are none, the first is not a move
   * name, or the first four are not the text of a legal action.
   */
  lemma ValidateIssueIff(g: Game, stdout: seq<String>)
    requires g.Valid() && stdout != []
    ensures var move := Words(stdout[0]);
      g.ValidateOutput(stdout).issue <==>
        (|| move == [] || move[0] !in Moves
         || (move[0] != "ACCEPT-DEFEAT" && Join(FirstFour(move), " ") !in ActionStrings(LegalActions(g.board))))
  {
    WordsRStrip(stdout[0]);
  }

  /**
   * The action passed on is the cleaned form of the first line: ACCEPT-DEFEAT,
   * or its first four words joined by single spaces, whatever blanks the bot
   * put around or between them.
   */
  lemma ValidateCleanedForm(g: Game, stdout: seq<String>)
    requires g.Valid() && stdout != []
    ensures var move := Words(stdout[0]);
      var v := g.ValidateOutput(stdout);
      v.action.Some? ==>
        && move != []
        && v.action.value == (if move[0] == "ACCEPT-DEFEAT" then "ACCEPT-DEFEAT" else Join(FirstFour(move), " "))
  {
    WordsRStrip(stdout[0]);
  }
}
