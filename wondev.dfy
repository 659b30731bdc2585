/**
 * The rules of Wondev Woman as the arena's game engine implements them:
 * grid geometry, which opponent units a player sees, legal-action
 * generation, the state transition, and the text a bot receives each turn.
 *
 * A board is always seen from the side of the player to move ("my" units
 * and score) and is handed to the other side by swapping the two halves.
 */
module WondevWoman {
  import opened Wrappers
  import opened Text
  import opened Sequences

  // ---------------------------------------------------------------------
  // Constants
  // ---------------------------------------------------------------------

  datatype Dir = E | SE | S | SW | W | NW | N | NE

  /** The keys of DIRECTIONS, in the order a loop over the dict visits them. */
  const Directions: seq<Dir> := [E, SE, S, SW, W, NW, N, NE]

  /** DIRECTIONS[d]: the (dx, dy) step of a direction. */
  function Offset(d: Dir): (int, int) {
    match d
    case E => (1, 0)
    case SE => (1, 1)
    case S => (0, 1)
    case SW => (-1, 1)
    case W => (-1, 0)
    case NW => (-1, -1)
    case N => (0, -1)
    case NE => (1, -1)
  }

  function DirName(d: Dir): String {
    match d
    case E => "E"
    case SE => "SE"
    case S => "S"
    case SW => "SW"
    case W => "W"
    case NW => "NW"
    case N => "N"
    case NE => "NE"
  }

  /** Looking a name up in DIRECTIONS; a KeyError is None. */
  function DirNamed(name: String): Option<Dir> {
    if name == "E" then Some(E)
    else if name == "SE" then Some(SE)
    else if name == "S" then Some(S)
    else if name == "SW" then Some(SW)
    else if name == "W" then Some(W)
    else if name == "NW" then Some(NW)
    else if name == "N" then Some(N)
    else if name == "NE" then Some(NE)
    else None
  }

  /** PUSH_DIR_2_OPTIONS: a push goes straight on or turns by 45 degrees. */
  function PushDir2Options(d: Dir): seq<Dir> {
    match d
    case W => [SW, W, NW]
    case NW => [W, NW, N]
    case N => [NW, N, NE]
    case NE => [N, NE, E]
    case E => [NE, E, SE]
    case SE => [E, SE, S]
    case S => [SE, S, SW]
    case SW => [S, SW, W]
  }

  const Moves: set<String> := {"ACCEPT-DEFEAT", "MOVE&BUILD", "PUSH&BUILD"}

  /** WARNINGS: the debug codes the arena picks out of a bot's stderr. */
  const Warnings: set<String> := {"OUT OF TIME", "OUT_OF_TIME:", "Warning:"}

  /** Directions lists every direction: the move loops try them all. */
  lemma DirectionsComplete(d: Dir)
    ensures d in Directions
  {
  }

  lemma DirNameRoundTrip(d: Dir)
    ensures DirNamed(DirName(d)) == Some(d)
    ensures IsWord(DirName(d)) && '\n' !in DirName(d)
  {
  }

  // ---------------------------------------------------------------------
  // Geometry
  // ---------------------------------------------------------------------

  datatype Pos = Pos(x: int, y: int)

  /** move_by */
  function MoveBy(p: Pos, d: Dir): Pos {
    Pos(p.x + Offset(d).0, p.y + Offset(d).1)
  }

  function Abs(i: int): nat {
    if i < 0 then -i else i
  }

  function Min(a: int, b: int): int {
    if a <= b then a else b
  }

  /** unit_dist: the larger of the two coordinate differences. */
  function UnitDist(a: Pos, b: Pos): nat {
    var dx, dy := Abs(a.x - b.x), Abs(a.y - b.y);
    if dx < dy then dy else dx
  }

  /** unit_dist is the Chebyshev metric: symmetric, zero only on equal positions, and obeys the triangle inequality. */
  lemma UnitDistMetric(a: Pos, b: Pos, c: Pos)
    ensures UnitDist(a, b) == UnitDist(b, a)
    ensures UnitDist(a, b) == 0 <==> a == b
    ensures UnitDist(a, c) <= UnitDist(a, b) + UnitDist(b, c)
    ensures UnitDist(a, b) <= 1 <==> -1 <= a.x - b.x <= 1 && -1 <= a.y - b.y <= 1
  {
  }

  /** Every step of move_by reaches a neighbouring cell, and the eight directions reach all of them. */
  lemma MoveByNeighbours(p: Pos, q: Pos)
    ensures forall d :: UnitDist(p, MoveBy(p, d)) == 1
    ensures UnitDist(p, q) == 1 ==> exists d :: MoveBy(p, d) == q
  {
    if UnitDist(p, q) == 1 {
      var dx, dy := q.x - p.x, q.y - p.y;
      var d :=
        if dx == 1 && dy == 0 then E
        else if dx == 1 && dy == 1 then SE
        else if dx == 0 && dy == 1 then S
        else if dx == -1 && dy == 1 then SW
        else if dx == -1 && dy == 0 then W
        else if dx == -1 && dy == -1 then NW
        else if dx == 0 && dy == -1 then N
        else NE;
      assert MoveBy(p, d) == q;
    }
  }

  // ---------------------------------------------------------------------
  // Actions
  // ---------------------------------------------------------------------

  datatype ActionType = MoveBuild | PushBuild

  function TypeName(t: ActionType): String {
    match t
    case MoveBuild => "MOVE&BUILD"
    case PushBuild => "PUSH&BUILD"
  }

  datatype Action = Action(atype: ActionType, index: int, dir1: Dir, dir2: Dir)

  /** Action.__str__: "{type} {index} {dir_1} {dir_2}". */
  function ActionString(a: Action): String {
    Join([TypeName(a.atype), IntToString(a.index), DirName(a.dir1), DirName(a.dir2)], " ")
  }

  /**
   * Action(*s.split()): four words, the index read with int(). Any type word
   * other than PUSH&BUILD takes the MOVE&BUILD branch of next_board_state.
   */
  function ParseAction(s: String): Option<Action> {
    var ws := Words(s);
    if |ws| != 4 then None
    else
      var index, d1, d2 := ParseInt(ws[1]), DirNamed(ws[2]), DirNamed(ws[3]);
      if index.None? || d1.None? || d2.None? then None
      else Some(Action(if ws[0] == "PUSH&BUILD" then PushBuild else MoveBuild, index.value, d1.value, d2.value))
  }

  /** Reading back the string of an action gives the action. */
  lemma ActionRoundTrip(a: Action)
    ensures ParseAction(ActionString(a)) == Some(a)
  {
    ActionWords(a);
    IntRoundTrip(a.index);
    DirNameRoundTrip(a.dir1);
    DirNameRoundTrip(a.dir2);
  }

  lemma ActionWords(a: Action)
    ensures Words(ActionString(a)) == [TypeName(a.atype), IntToString(a.index), DirName(a.dir1), DirName(a.dir2)]
  {
    var parts := [TypeName(a.atype), IntToString(a.index), DirName(a.dir1), DirName(a.dir2)];
    TypeNameIsWord(a.atype);
    IntToStringIsWord(a.index);
    DirNameRoundTrip(a.dir1);
    DirNameRoundTrip(a.dir2);
    assert forall p :: p in parts ==> IsWord(p);
    WordsJoin(parts);
  }

  lemma TypeNameIsWord(t: ActionType)
    ensures IsWord(TypeName(t)) && '\n' !in TypeName(t)
  {
  }

  /** Distinct actions have distinct strings, so comparing strings compares actions. */
  lemma ActionStringInjective(a: Action, c: Action)
    requires ActionString(a) == ActionString(c)
    ensures a == c
  {
    ActionRoundTrip(a);
    ActionRoundTrip(c);
  }

  lemma ActionStringOneLine(a: Action)
    ensures '\n' !in ActionString(a)
  {
    var parts := [TypeName(a.atype), IntToString(a.index), DirName(a.dir1), DirName(a.dir2)];
    DirNameRoundTrip(a.dir1);
    DirNameRoundTrip(a.dir2);
    JoinExcludes(parts, " ", '\n');
  }

  /** The key of legal_actions.sort(key=str). */
  function ActionLe(a: Action, c: Action): bool {
    StrLessEq(ActionString(a), ActionString(c))
  }

  lemma ActionLeTotalPreorder()
    ensures TotalPreorder(ActionLe)
  {
    forall a, c ensures ActionLe(a, c) || ActionLe(c, a) {
      StrLessEqTotal(ActionString(a), ActionString(c));
    }
    forall a, c, e | ActionLe(a, c) && ActionLe(c, e) ensures ActionLe(a, e) {
      StrLessEqTrans(ActionString(a), ActionString(c), ActionString(e));
    }
  }

  /** [str(a) for a in actions] */
  function ActionStrings(actions: seq<Action>): (r: seq<String>)
    ensures |r| == |actions|
    ensures forall i :: 0 <= i < |actions| ==> r[i] == ActionString(actions[i])
  {
    if actions == [] then [] else ActionStrings(actions[..|actions| - 1]) + [ActionString(actions[|actions| - 1])]
  }

  function FindByString(actions: seq<Action>, s: String): (a: Action)
    requires s in ActionStrings(actions)
    ensures a in actions && ActionString(a) == s
  {
    if ActionString(actions[0]) == s then actions[0]
    else
      assert ActionStrings(actions[1..]) == ActionStrings(actions)[1..];
      FindByString(actions[1..], s)
  }

  // ---------------------------------------------------------------------
  // Grid and board state
  // ---------------------------------------------------------------------

  /**
   * The playable cells, grid[x][y] for 0 <= x, y < size. The numpy array of
   * the source has two more rows and columns of -1; the off-board cells a
   * lookup can reach (coordinates -2 .. size+1) all read that padding.
   */
  type Grid = seq<seq<int>>

  predicate OnBoard(g: Grid, p: Pos) {
    0 <= p.x < |g| && 0 <= p.y < |g[p.x]|
  }

  /** grid[pos]: the height of a cell, -1 for a hole or anywhere off the board. */
  function Height(g: Grid, p: Pos): int {
    if OnBoard(g, p) then g[p.x][p.y] else -1
  }

  /** new_grid[pos] += 1: a build on one cell of the board. */
  function Raise(g: Grid, p: Pos): (r: Grid)
    requires OnBoard(g, p)
    ensures |r| == |g| && forall x :: 0 <= x < |g| ==> |r[x]| == |g[x]|
    ensures forall q :: Height(r, q) == Height(g, q) + (if q == p then 1 else 0)
  {
    g[p.x := g[p.x][p.y := g[p.x][p.y] + 1]]
  }

  type PlayerId = p: nat | p < 2

  /** current_player_id ^ 1 */
  function Other(p: PlayerId): PlayerId {
    1 - p
  }

  /** i ^ current_player_id for two player ids. */
  function Xor(i: PlayerId, c: PlayerId): PlayerId {
    if i == c then 0 else 1
  }

  /** BoardState: player_units, scores and active_players as (mine, opponent's). */
  datatype BoardState = BoardState(
    grid: Grid,
    myUnits: seq<Pos>,
    opUnits: seq<Pos>,
    myScore: int,
    opScore: int,
    turn: int,
    myActive: bool,
    opActive: bool,
    currentPlayerId: PlayerId)

  /**
   * Both sides have units (is_visible takes a minimum over "my" units) and
   * every unit stands on a cell of the board.
   */
  predicate Wf(b: BoardState) {
    && b.myUnits != []
    && b.opUnits != []
    && (forall u :: u in b.myUnits ==> 0 <= Height(b.grid, u))
    && (forall u :: u in b.opUnits ==> 0 <= Height(b.grid, u))
  }

  /** The same position handed to the other side. */
  function Swapped(b: BoardState): BoardState {
    BoardState(b.grid, b.opUnits, b.myUnits, b.opScore, b.myScore, b.turn, b.opActive, b.myActive, Other(b.currentPlayerId))
  }

  /** The units of player p, whichever side is to move. */
  function UnitsOf(b: BoardState, p: PlayerId): seq<Pos> {
    if p == b.currentPlayerId then b.myUnits else b.opUnits
  }

  function ScoreOf(b: BoardState, p: PlayerId): int {
    if p == b.currentPlayerId then b.myScore else b.opScore
  }

  function ActiveOf(b: BoardState, p: PlayerId): bool {
    if p == b.currentPlayerId then b.myActive else b.opActive
  }

  /** Handing the board over changes nobody's units, score or activity. */
  lemma SwappedKeepsPlayers(b: BoardState)
    ensures forall p: PlayerId :: UnitsOf(Swapped(b), p) == UnitsOf(b, p)
    ensures forall p: PlayerId :: ScoreOf(Swapped(b), p) == ScoreOf(b, p)
    ensures forall p: PlayerId :: ActiveOf(Swapped(b), p) == ActiveOf(b, p)
    ensures Wf(b) ==> Wf(Swapped(b))
  {
  }

  // ---------------------------------------------------------------------
  // Visibility
  // ---------------------------------------------------------------------

  /** min(unit_dist(u, v) for v in units) */
  function MinDist(u: Pos, units: seq<Pos>): nat
    requires units != []
  {
    if |units| == 1 then UnitDist(u, units[0])
    else
      var rest, here := MinDist(u, units[1..]), UnitDist(u, units[0]);
      if here <= rest then here else rest
  }

  /** MinDist is attained by some unit and is at most the distance to every unit. */
  lemma {:induction false} MinDistBounds(u: Pos, units: seq<Pos>)
    requires units != []
    ensures exists v :: v in units && UnitDist(u, v) == MinDist(u, units)
    ensures forall v :: v in units ==> MinDist(u, units) <= UnitDist(u, v)
  {
    if |units| == 1 {
      assert units[0] in units;
    } else {
      MinDistBounds(u, units[1..]);
      assert forall v :: v in units ==> v == units[0] || v in units[1..];
      if UnitDist(u, units[0]) <= MinDist(u, units[1..]) {
        assert units[0] in units;
      } else {
        var w :| w in units[1..] && UnitDist(u, w) == MinDist(u, units[1..]);
        assert w in units;
      }
    }
  }

  /** BoardState.is_visible */
  predicate IsVisible(b: BoardState, u: Pos)
    requires b.myUnits != []
  {
    MinDist(u, b.myUnits) <= 1
  }

  /** A unit is visible exactly when one of the mover's units is at distance at most 1. */
  lemma VisibleIff(b: BoardState, u: Pos)
    requires b.myUnits != []
    ensures IsVisible(b, u) <==> exists v :: v in b.myUnits && UnitDist(u, v) <= 1
  {
    MinDistBounds(u, b.myUnits);
  }

  function FilterVisible(b: BoardState, us: seq<Pos>): seq<Pos>
    requires b.myUnits != []
  {
    if us == [] then []
    else
      var last := us[|us| - 1];
      FilterVisible(b, us[..|us| - 1]) + (if IsVisible(b, last) then [last] else [])
  }

  lemma {:induction false} FilterVisibleMember(b: BoardState, us: seq<Pos>, u: Pos)
    requires b.myUnits != []
    ensures u in FilterVisible(b, us) <==> u in us && IsVisible(b, u)
  {
    if us != [] {
      FilterVisibleMember(b, us[..|us| - 1], u);
      InInitOrLast(us, u);
    }
  }

  /** visible_units[1]: the opponent units the mover can see, in order. */
  function VisibleOps(b: BoardState): seq<Pos>
    requires b.myUnits != []
  {
    FilterVisible(b, b.opUnits)
  }

  /** The mover sees exactly the opponent units next to one of its own. */
  lemma VisibleOpsMember(b: BoardState, u: Pos)
    requires b.myUnits != []
    ensures u in VisibleOps(b) <==> u in b.opUnits && exists v :: v in b.myUnits && UnitDist(u, v) <= 1
  {
    FilterVisibleMember(b, b.opUnits, u);
    VisibleIff(b, u);
  }

  /** io_units[1]: the opponent units as sent to the mover, hidden ones as (-1, -1). */
  function IoOpUnits(b: BoardState): (r: seq<Pos>)
    requires b.myUnits != []
    ensures |r| == |b.opUnits|
  {
    HideUnits(b, b.opUnits)
  }

  function HideUnits(b: BoardState, us: seq<Pos>): (r: seq<Pos>)
    requires b.myUnits != []
    ensures |r| == |us|
  {
    if us == [] then []
    else HideUnits(b, us[..|us| - 1]) + [if IsVisible(b, us[|us| - 1]) then us[|us| - 1] else Pos(-1, -1)]
  }

  /** A bot is told where each opponent unit is when it sees it, and (-1, -1) otherwise. */
  lemma {:induction false} HideUnitsSpec(b: BoardState, us: seq<Pos>)
    requires b.myUnits != []
    ensures forall i :: 0 <= i < |us| ==>
      HideUnits(b, us)[i] == if IsVisible(b, us[i]) then us[i] else Pos(-1, -1)
  {
    if us != [] {
      HideUnitsSpec(b, us[..|us| - 1]);
    }
  }

  /** io_units */
  function IoUnits(b: BoardState): seq<seq<Pos>>
    requires b.myUnits != []
  {
    [b.myUnits, IoOpUnits(b)]
  }

  // ---------------------------------------------------------------------
  // Legal actions
  // ---------------------------------------------------------------------

  /** A push from p1 may send the unit to p2. */
  predicate PushTargetOk(b: BoardState, p1: Pos, p2: Pos)
    requires b.myUnits != []
  {
    && 0 <= Height(b.grid, p2) <= Min(3, Height(b.grid, p1) + 1)
    && p2 !in b.myUnits
    && p2 !in VisibleOps(b)
  }

  /** The unit at u may move to p1. */
  predicate MoveFirstOk(b: BoardState, u: Pos, p1: Pos) {
    0 <= Height(b.grid, p1) <= Min(3, Height(b.grid, u) + 1) && p1 !in b.myUnits
  }

  /** After moving away from u, the unit may build on p2. */
  predicate MoveTargetOk(b: BoardState, u: Pos, p2: Pos)
    requires b.myUnits != []
  {
    p2 == u || (0 <= Height(b.grid, p2) <= 3 && p2 !in b.myUnits && p2 !in VisibleOps(b))
  }

  /** The pushes of unit u in direction d1 for the second directions ds, in that order. */
  function PushActions(b: BoardState, index: int, u: Pos, d1: Dir, ds: seq<Dir>): seq<Action>
    requires b.myUnits != []
  {
    if ds == [] then []
    else
      var d2 := ds[|ds| - 1];
      var p1 := MoveBy(u, d1);
      PushActions(b, index, u, d1, ds[..|ds| - 1])
      + (if PushTargetOk(b, p1, MoveBy(p1, d2)) then [Action(PushBuild, index, d1, d2)] else [])
  }

  /** The move-and-builds of unit u in direction d1 for the build directions ds, in that order. */
  function MoveActions(b: BoardState, index: int, u: Pos, d1: Dir, ds: seq<Dir>): seq<Action>
    requires b.myUnits != []
  {
    if ds == [] then []
    else
      var d2 := ds[|ds| - 1];
      var p1 := MoveBy(u, d1);
      MoveActions(b, index, u, d1, ds[..|ds| - 1])
      + (if MoveTargetOk(b, u, MoveBy(p1, d2)) then [Action(MoveBuild, index, d1, d2)] else [])
  }

  /** What unit u can do in first direction d1: push a visible unit there, or move there. */
  function DirActions(b: BoardState, index: int, u: Pos, d1: Dir): seq<Action>
    requires b.myUnits != []
  {
    var p1 := MoveBy(u, d1);
    if p1 in VisibleOps(b) then PushActions(b, index, u, d1, PushDir2Options(d1))
    else if MoveFirstOk(b, u, p1) then MoveActions(b, index, u, d1, Directions)
    else []
  }

  function UnitActions(b: BoardState, index: int, u: Pos, ds: seq<Dir>): seq<Action>
    requires b.myUnits != []
  {
    if ds == [] then []
    else UnitActions(b, index, u, ds[..|ds| - 1]) + DirActions(b, index, u, ds[|ds| - 1])
  }

  /** The actions of the first k units in the order my_legal_actions appends them. */
  function RawActions(b: BoardState, k: nat): seq<Action>
    requires b.myUnits != [] && k <= |b.myUnits|
  {
    if k == 0 then []
    else RawActions(b, k - 1) + UnitActions(b, k - 1, b.myUnits[k - 1], Directions)
  }

  /** legal_actions: everything my_legal_actions generates, sorted by string. */
  function LegalActions(b: BoardState): seq<Action>
    requires b.myUnits != []
  {
    SortBy(RawActions(b, |b.myUnits|), ActionLe)
  }

  /** What the rules allow unit u to do, stated directly. */
  predicate LegalFrom(b: BoardState, u: Pos, a: Action)
    requires b.myUnits != []
  {
    var p1 := MoveBy(u, a.dir1);
    var p2 := MoveBy(p1, a.dir2);
    if p1 in VisibleOps(b) then
      a.atype == PushBuild && a.dir2 in PushDir2Options(a.dir1) && PushTargetOk(b, p1, p2)
    else
      a.atype == MoveBuild && MoveFirstOk(b, u, p1) && MoveTargetOk(b, u, p2)
  }

  /** What the rules allow the mover to do, stated directly. */
  predicate IsLegal(b: BoardState, a: Action)
    requires b.myUnits != []
  {
    0 <= a.index < |b.myUnits| && LegalFrom(b, b.myUnits[a.index], a)
  }

  lemma {:induction false} PushActionsMember(b: BoardState, index: int, u: Pos, d1: Dir, ds: seq<Dir>, a: Action)
    requires b.myUnits != []
    ensures a in PushActions(b, index, u, d1, ds) <==>
      a.atype == PushBuild && a.index == index && a.dir1 == d1 && a.dir2 in ds
      && PushTargetOk(b, MoveBy(u, d1), MoveBy(MoveBy(u, d1), a.dir2))
  {
    if ds != [] {
      PushActionsMember(b, index, u, d1, ds[..|ds| - 1], a);
      assert ds == ds[..|ds| - 1] + [ds[|ds| - 1]];
    }
  }

  lemma {:induction false} MoveActionsMember(b: BoardState, index: int, u: Pos, d1: Dir, ds: seq<Dir>, a: Action)
    requires b.myUnits != []
    ensures a in MoveActions(b, index, u, d1, ds) <==>
      a.atype == MoveBuild && a.index == index && a.dir1 == d1 && a.dir2 in ds
      && MoveTargetOk(b, u, MoveBy(MoveBy(u, d1), a.dir2))
  {
    if ds != [] {
      MoveActionsMember(b, index, u, d1, ds[..|ds| - 1], a);
      assert ds == ds[..|ds| - 1] + [ds[|ds| - 1]];
    }
  }

  lemma DirActionsMember(b: BoardState, index: int, u: Pos, d1: Dir, a: Action)
    requires b.myUnits != []
    ensures a in DirActions(b, index, u, d1) <==> a.index == index && a.dir1 == d1 && LegalFrom(b, u, a)
  {
    PushActionsMember(b, index, u, d1, PushDir2Options(d1), a);
    MoveActionsMember(b, index, u, d1, Directions, a);
    DirectionsComplete(a.dir2);
  }

  lemma {:induction false} UnitActionsMember(b: BoardState, index: int, u: Pos, ds: seq<Dir>, a: Action)
    requires b.myUnits != []
    ensures a in UnitActions(b, index, u, ds) <==> a.index == index && a.dir1 in ds && LegalFrom(b, u, a)
  {
    if ds != [] {
      var init, d1 := ds[..|ds| - 1], ds[|ds| - 1];
      UnitActionsMember(b, index, u, init, a);
      DirActionsMember(b, index, u, d1, a);
      assert UnitActions(b, index, u, ds) == UnitActions(b, index, u, init) + DirActions(b, index, u, d1);
      InInitOrLast(ds, a.dir1);
    }
  }

  lemma {:induction false} RawActionsMember(b: BoardState, k: nat, a: Action)
    requires b.myUnits != [] && k <= |b.myUnits|
    ensures a in RawActions(b, k) <==> 0 <= a.index < k && LegalFrom(b, b.myUnits[a.index], a)
  {
    hide LegalFrom, UnitActions;
    if k > 0 {
      var u := b.myUnits[k - 1];
      RawActionsMember(b, k - 1, a);
      UnitActionsMember(b, k - 1, u, Directions, a);
      DirectionsComplete(a.dir1);
      assert a in RawActions(b, k) <==> a in RawActions(b, k - 1) || a in UnitActions(b, k - 1, u, Directions);
      if a.index == k - 1 {
        assert a in RawActions(b, k) <==> LegalFrom(b, u, a);
      } else {
        assert a in RawActions(b, k) <==> a in RawActions(b, k - 1);
      }
    }
  }

  /** An action is in legal_actions exactly when the rules allow it. */
  lemma LegalActionsCharacterization(b: BoardState, a: Action)
    requires b.myUnits != []
    ensures a in LegalActions(b) <==> IsLegal(b, a)
  {
    var raw := RawActions(b, |b.myUnits|);
    assert a in LegalActions(b) <==> a in raw by {
      assert a in LegalActions(b) <==> a in multiset(LegalActions(b));
      assert a in raw <==> a in multiset(raw);
    }
    RawActionsMember(b, |b.myUnits|, a);
  }

  /** The same, for every action at once. */
  lemma LegalActionsExact(b: BoardState)
    requires b.myUnits != []
    ensures forall a :: a in LegalActions(b) <==> IsLegal(b, a)
  {
    forall a ensures a in LegalActions(b) <==> IsLegal(b, a) {
      LegalActionsCharacterization(b, a);
    }
  }

  /** legal_actions is in increasing string order, and is a rearrangement of what was generated. */
  lemma LegalActionsSorted(b: BoardState)
    requires b.myUnits != []
    ensures SortedBy(LegalActions(b), ActionLe)
    ensures multiset(LegalActions(b)) == multiset(RawActions(b, |b.myUnits|))
    ensures forall i, j :: 0 <= i < j < |LegalActions(b)| ==> StrLessEq(ActionString(LegalActions(b)[i]), ActionString(LegalActions(b)[j]))
  {
    ActionLeTotalPreorder();
    SortBySorted(RawActions(b, |b.myUnits|), ActionLe);
  }

  /** The MOVE&BUILD actions: the first step lands on a free cell at most one level up (and at most 3). */
  lemma LegalMoveBuild(b: BoardState, a: Action)
    requires b.myUnits != [] && a in LegalActions(b) && a.atype == MoveBuild
    ensures 0 <= a.index < |b.myUnits|
    ensures var u := b.myUnits[a.index];
      var p1 := MoveBy(u, a.dir1);
      && p1 !in VisibleOps(b)
      && 0 <= Height(b.grid, p1) <= Min(3, Height(b.grid, u) + 1)
      && p1 !in b.myUnits
      && MoveTargetOk(b, u, MoveBy(p1, a.dir2))
  {
    LegalActionsCharacterization(b, a);
  }

  /** The PUSH&BUILD actions: the first step hits a visible opponent unit, the second is one of the three allowed turns. */
  lemma LegalPushBuild(b: BoardState, a: Action)
    requires b.myUnits != [] && a in LegalActions(b) && a.atype == PushBuild
    ensures 0 <= a.index < |b.myUnits|
    ensures var p1 := MoveBy(b.myUnits[a.index], a.dir1);
      && p1 in VisibleOps(b)
      && p1 in b.opUnits
      && a.dir2 in PushDir2Options(a.dir1)
      && PushTargetOk(b, p1, MoveBy(p1, a.dir2))
  {
    LegalActionsCharacterization(b, a);
    VisibleOpsMember(b, MoveBy(b.myUnits[a.index], a.dir1));
  }

  // ---------------------------------------------------------------------
  // The transition
  // ---------------------------------------------------------------------

  function IndexOf(s: seq<Pos>, x: Pos): (i: nat)
    requires x in s
    ensures i < |s| && s[i] == x && x !in s[..i]
  {
    if s[0] == x then 0
    else
      assert s == [s[0]] + s[1..];
      1 + IndexOf(s[1..], x)
  }

  /** The builds of a legal action land on the board. */
  lemma LegalBuildsOnBoard(b: BoardState, a: Action)
    requires Wf(b) && IsLegal(b, a)
    ensures var p1 := MoveBy(b.myUnits[a.index], a.dir1);
      if a.atype == PushBuild then OnBoard(b.grid, p1) && p1 in b.opUnits
      else OnBoard(b.grid, MoveBy(p1, a.dir2))
  {
    var u := b.myUnits[a.index];
    assert u in b.myUnits;
    VisibleOpsMember(b, MoveBy(u, a.dir1));
  }

  /** The grid, units and score after a legal action, before the board is handed over. */
  function Built(b: BoardState, a: Action): (r: BoardState)
    requires Wf(b) && IsLegal(b, a)
  {
    LegalBuildsOnBoard(b, a);
    var u := b.myUnits[a.index];
    var p1 := MoveBy(u, a.dir1);
    var p2 := MoveBy(p1, a.dir2);
    if a.atype == PushBuild then
      if p2 in b.opUnits then b
      else b.(grid := Raise(b.grid, p1), opUnits := b.opUnits[IndexOf(b.opUnits, p1) := p2])
    else
      b.(grid := if p2 in b.opUnits then b.grid else Raise(b.grid, p2),
         myUnits := b.myUnits[a.index := p1],
         myScore := if Height(b.grid, p1) == 3 then b.myScore + 1 else b.myScore)
  }

  lemma BuiltWf(b: BoardState, a: Action)
    requires Wf(b) && IsLegal(b, a)
    ensures Wf(Built(b, a))
    ensures Built(b, a).turn == b.turn && Built(b, a).currentPlayerId == b.currentPlayerId
    ensures Built(b, a).myActive == b.myActive && Built(b, a).opActive == b.opActive
    ensures |Built(b, a).grid| == |b.grid|
    ensures |Built(b, a).myUnits| == |b.myUnits| && |Built(b, a).opUnits| == |b.opUnits|
  {
    var r := Built(b, a);
    LegalBuildsOnBoard(b, a);
    assert forall q :: Height(r.grid, q) >= Height(b.grid, q);
    var u := b.myUnits[a.index];
    var p1 := MoveBy(u, a.dir1);
    var p2 := MoveBy(p1, a.dir2);
    if a.atype == PushBuild && p2 !in b.opUnits {
      var j := IndexOf(b.opUnits, p1);
      forall v | v in r.opUnits ensures 0 <= Height(r.grid, v) {
        var k :| 0 <= k < |r.opUnits| && r.opUnits[k] == v;
        if k != j {
          assert b.opUnits[k] == v;
        }
      }
    } else if a.atype == MoveBuild {
      forall v | v in r.myUnits ensures 0 <= Height(r.grid, v) {
        var k :| 0 <= k < |r.myUnits| && r.myUnits[k] == v;
        if k != a.index {
          assert b.myUnits[k] == v;
        }
      }
    }
  }

  /** A legal action played: the builds, then the board handed over when the opponent is still active. */
  /** The board keeps its size and each player keeps its number of units. */
  predicate SameShape(b: BoardState, r: BoardState) {
    && |r.grid| == |b.grid|
    && (r.currentPlayerId == b.currentPlayerId ==> |r.myUnits| == |b.myUnits| && |r.opUnits| == |b.opUnits|)
    && (r.currentPlayerId != b.currentPlayerId ==> |r.myUnits| == |b.opUnits| && |r.opUnits| == |b.myUnits|)
  }

  function Advance(b: BoardState, a: Action): (r: BoardState)
    requires Wf(b) && IsLegal(b, a)
    ensures Wf(r) && r.turn == b.turn + 1
    ensures SameShape(b, r)
  {
    BuiltWf(b, a);
    var built := Built(b, a);
    if b.opActive then Swapped(built).(turn := b.turn + 1)
    else built.(turn := b.turn + 1)
  }

  /**
   * BoardState.next_board_state. The source parses the string it was given;
   * ParseFindsLegal shows that this yields the legal action with that string.
   */
  function NextBoardState(b: BoardState, actionStr: Option<String>): (r: BoardState)
    requires Wf(b)
    ensures Wf(r)
    ensures r.turn == b.turn + 1
    ensures SameShape(b, r)
  {
    var legal := LegalActions(b);
    if actionStr.None? || actionStr.value !in ActionStrings(legal) then
      // an unknown action: the mover drops out and the board is handed over
      Swapped(b.(myActive := false)).(turn := b.turn + 1)
    else
      var a := FindByString(legal, actionStr.value);
      LegalActionsCharacterization(b, a);
      Advance(b, a)
  }

  /** Action(*action_str.split()) on the string of a legal action is that legal action. */
  lemma ParseFindsLegal(b: BoardState, s: String)
    requires b.myUnits != [] && s in ActionStrings(LegalActions(b))
    ensures ParseAction(s) == Some(FindByString(LegalActions(b), s))
  {
    ActionRoundTrip(FindByString(LegalActions(b), s));
  }

  /**
   * A string that is not a legal action changes no grid cell, unit or score,
   * deactivates the mover, and passes the turn to the other player.
   */
  lemma NextBoardStateIllegal(b: BoardState, actionStr: Option<String>)
    requires Wf(b)
    requires actionStr.None? || actionStr.value !in ActionStrings(LegalActions(b))
    ensures var r := NextBoardState(b, actionStr);
      && r.grid == b.grid
      && (forall p: PlayerId :: UnitsOf(r, p) == UnitsOf(b, p) && ScoreOf(r, p) == ScoreOf(b, p))
      && (forall p: PlayerId :: ActiveOf(r, p) == (ActiveOf(b, p) && p != b.currentPlayerId))
      && r.currentPlayerId == Other(b.currentPlayerId)
  {
  }

  /** Once both players are out, nothing brings either of them back. */
  lemma NextBoardStateKeepsInactive(b: BoardState, actionStr: Option<String>)
    requires Wf(b) && !b.myActive && !b.opActive
    ensures !NextBoardState(b, actionStr).myActive && !NextBoardState(b, actionStr).opActive
  {
    var legal := LegalActions(b);
    if actionStr.Some? && actionStr.value in ActionStrings(legal) {
      var a := FindByString(legal, actionStr.value);
      LegalActionsCharacterization(b, a);
      AdvanceTurnOrder(b, a);
    }
  }

  /** The string of a legal action is recognised, and the action is played. */
  lemma NextBoardStateLegal(b: BoardState, a: Action)
    requires Wf(b) && IsLegal(b, a)
    ensures ActionString(a) in ActionStrings(LegalActions(b))
    ensures NextBoardState(b, Some(ActionString(a))) == Advance(b, a)
  {
    LegalActionsCharacterization(b, a);
    var legal := LegalActions(b);
    var i :| 0 <= i < |legal| && legal[i] == a;
    assert ActionStrings(legal)[i] == ActionString(a);
    ActionStringInjective(a, FindByString(legal, ActionString(a)));
  }

  /** A legal action passes the turn exactly when the opponent is still active, and nobody's activity changes. */
  lemma AdvanceTurnOrder(b: BoardState, a: Action)
    requires Wf(b) && IsLegal(b, a)
    ensures var r := Advance(b, a);
      && r.currentPlayerId == (if b.opActive then Other(b.currentPlayerId) else b.currentPlayerId)
      && (forall p: PlayerId :: ActiveOf(r, p) == ActiveOf(b, p))
  {
    BuiltWf(b, a);
  }

  /**
   * MOVE&BUILD: the unit goes to the first cell, its owner scores a point when
   * that cell is at height 3, and the second cell rises by one unless an
   * opponent unit stands on it.
   */
  lemma AdvanceMoveBuild(b: BoardState, a: Action)
    requires Wf(b) && IsLegal(b, a) && a.atype == MoveBuild
    ensures var r := Advance(b, a);
      var me, them := b.currentPlayerId, Other(b.currentPlayerId);
      var p1 := MoveBy(b.myUnits[a.index], a.dir1);
      var p2 := MoveBy(p1, a.dir2);
      && UnitsOf(r, me) == b.myUnits[a.index := p1]
      && ScoreOf(r, me) == b.myScore + (if Height(b.grid, p1) == 3 then 1 else 0)
      && UnitsOf(r, them) == b.opUnits
      && ScoreOf(r, them) == b.opScore
      && forall q :: Height(r.grid, q) == Height(b.grid, q) + (if q == p2 && p2 !in b.opUnits then 1 else 0)
  {
    BuiltWf(b, a);
    LegalBuildsOnBoard(b, a);
  }

  /**
   * PUSH&BUILD: nothing happens when the push target holds an opponent unit;
   * otherwise the pushed unit moves to the second cell and the first cell
   * rises by one. Scores never change.
   */
  lemma AdvancePushBuild(b: BoardState, a: Action)
    requires Wf(b) && IsLegal(b, a) && a.atype == PushBuild
    ensures var r := Advance(b, a);
      var me, them := b.currentPlayerId, Other(b.currentPlayerId);
      var p1 := MoveBy(b.myUnits[a.index], a.dir1);
      var p2 := MoveBy(p1, a.dir2);
      && p1 in b.opUnits
      && UnitsOf(r, me) == b.myUnits
      && ScoreOf(r, me) == b.myScore
      && ScoreOf(r, them) == b.opScore
      && (p2 in b.opUnits ==> UnitsOf(r, them) == b.opUnits && r.grid == b.grid)
      && (p2 !in b.opUnits ==>
            && UnitsOf(r, them) == b.opUnits[IndexOf(b.opUnits, p1) := p2]
            && forall q :: Height(r.grid, q) == Height(b.grid, q) + (if q == p1 then 1 else 0))
  {
    BuiltWf(b, a);
    LegalBuildsOnBoard(b, a);
  }

  // ---------------------------------------------------------------------
  // Text sent to the bot
  // ---------------------------------------------------------------------

  /** One cell of input_grid: "." for a hole, otherwise its height. */
  function CellText(h: int): String {
    if h == -1 then "." else IntToString(h)
  }

  /** The cells (0, y), ..., (n-1, y) of one row of input_grid. */
  function GridRow(g: Grid, y: int, n: nat): String {
    if n == 0 then [] else GridRow(g, y, n - 1) + CellText(Height(g, Pos(n - 1, y)))
  }

  /** The first n rows of input_grid. */
  function GridRows(g: Grid, n: nat): (rows: seq<String>)
    ensures |rows| == n
  {
    if n == 0 then [] else GridRows(g, n - 1) + [GridRow(g, n - 1, |g|)]
  }

  /** input_grid: the rows joined by newlines. */
  function GridText(g: Grid): String {
    Join(GridRows(g, |g|), "\n")
  }

  function UnitLine(u: Pos): String {
    IntToString(u.x) + " " + IntToString(u.y)
  }

  function UnitLines(us: seq<Pos>): (lines: seq<String>)
    ensures |lines| == |us|
  {
    if us == [] then [] else UnitLines(us[..|us| - 1]) + [UnitLine(us[|us| - 1])]
  }

  /** The unit lines of the first k lists of io_units. */
  function UnitListLines(lists: seq<seq<Pos>>, k: nat): seq<String>
    requires k <= |lists|
  {
    if k == 0 then [] else UnitListLines(lists, k - 1) + UnitLines(lists[k - 1])
  }

  /** The lines of turn_input after the grid: units, the number of legal actions, the actions. */
  function TurnRest(b: BoardState): seq<String>
    requires b.myUnits != []
  {
    var legal := LegalActions(b);
    UnitLines(b.myUnits) + UnitLines(IoOpUnits(b)) + [IntToString(|legal|)] + ActionStrings(legal)
  }

  /** The lines of turn_input before they are joined. */
  function TurnLines(b: BoardState): seq<String>
    requires b.myUnits != []
  {
    [GridText(b.grid)] + TurnRest(b)
  }

  /** turn_input */
  function TurnText(b: BoardState): String
    requires b.myUnits != []
  {
    Join(TurnLines(b), "\n")
  }

  lemma {:induction false} GridRowsOneLine(g: Grid, n: nat)
    ensures forall r :: r in GridRows(g, n) ==> '\n' !in r
  {
    if n > 0 {
      GridRowsOneLine(g, n - 1);
      GridRowOneLine(g, n - 1, |g|);
    }
  }

  lemma {:induction false} GridRowOneLine(g: Grid, y: int, n: nat)
    ensures '\n' !in GridRow(g, y, n)
  {
    if n > 0 {
      GridRowOneLine(g, y, n - 1);
      CellOneLine(Height(g, Pos(n - 1, y)));
      NotInConcat(GridRow(g, y, n - 1), CellText(Height(g, Pos(n - 1, y))), '\n');
    }
  }

  lemma CellOneLine(h: int)
    ensures '\n' !in CellText(h)
  {
    if h != -1 {
      IntToStringExcludes(h, '\n');
    }
  }

  lemma NotInConcat(a: String, b: String, c: char)
    requires c !in a && c !in b
    ensures c !in a + b
  {
  }

  lemma {:induction false} UnitLinesOneLine(us: seq<Pos>)
    ensures forall l :: l in UnitLines(us) ==> '\n' !in l
  {
    if us != [] {
      UnitLinesOneLine(us[..|us| - 1]);
      var u := us[|us| - 1];
      IntToStringExcludes(u.x, '\n');
      IntToStringExcludes(u.y, '\n');
      assert '\n' !in UnitLine(u);
    }
  }

  /**
   * Read line by line, turn_input is: the rows of the grid, one line per unit
   * (the mover's first, hidden opponents as "-1 -1"), the number of legal
   * actions, and then exactly that many action strings.
   */
  lemma TurnInputLayout(b: BoardState)
    requires b.myUnits != [] && |b.grid| > 0
    ensures var legal := LegalActions(b);
      var lines := SplitOn(TurnText(b), '\n');
      && lines == GridRows(b.grid, |b.grid|) + UnitLines(b.myUnits) + UnitLines(IoOpUnits(b))
                  + [IntToString(|legal|)] + ActionStrings(legal)
      && |lines| == |b.grid| + |b.myUnits| + |b.opUnits| + 1 + |legal|
      && ParseInt(lines[|b.grid| + |b.myUnits| + |b.opUnits|]) == Some(|legal|)
  {
    var legal := LegalActions(b);
    var rows := GridRows(b.grid, |b.grid|);
    var rest := TurnRest(b);
    JoinCons(GridText(b.grid), rest, "\n");
    JoinAppend(rows, rest, "\n");
    RestOneLine(b);
    GridRowsOneLine(b.grid, |b.grid|);
    SplitJoin(rows + rest, '\n');
    IntRoundTrip(|legal|);
    AppendAssoc5(rows, UnitLines(b.myUnits), UnitLines(IoOpUnits(b)), [IntToString(|legal|)], ActionStrings(legal));
    ConcatIndex(rows, UnitLines(b.myUnits), UnitLines(IoOpUnits(b)), IntToString(|legal|), ActionStrings(legal));
  }

  /** The unit lines of io_units are the mover's units, then the opponent's as sent. */
  lemma IoUnitLines(mine: seq<Pos>, theirs: seq<Pos>)
    ensures UnitListLines([mine, theirs], 2) == UnitLines(mine) + UnitLines(theirs)
  {
    var lists := [mine, theirs];
    assert lists[0] == mine && lists[1] == theirs;
    assert UnitListLines(lists, 0) == [];
    assert UnitListLines(lists, 1) == UnitListLines(lists, 0) + UnitLines(mine);
    assert UnitListLines(lists, 1) == UnitLines(mine);
  }

  lemma JoinCons(x: String, rest: seq<String>, sep: String)
    requires rest != []
    ensures Join([x] + rest, sep) == x + sep + Join(rest, sep)
  {
    assert ([x] + rest)[1..] == rest;
  }

  lemma RestOneLine(b: BoardState)
    requires b.myUnits != []
    ensures var legal := LegalActions(b);
      forall l :: l in UnitLines(b.myUnits) + UnitLines(IoOpUnits(b)) + [IntToString(|legal|)] + ActionStrings(legal) ==> '\n' !in l
  {
    var legal := LegalActions(b);
    UnitLinesOneLine(b.myUnits);
    UnitLinesOneLine(IoOpUnits(b));
    IntToStringExcludes(|legal|, '\n');
    forall l | l in ActionStrings(legal) ensures '\n' !in l {
      var i :| 0 <= i < |ActionStrings(legal)| && ActionStrings(legal)[i] == l;
      ActionStringOneLine(legal[i]);
    }
  }

  // ---------------------------------------------------------------------
  // The loops of the source, checked against the functions above
  // ---------------------------------------------------------------------

  /** The push loop of my_legal_actions for unit u and first direction d1. */
  method AppendPushes(b: BoardState, visible: seq<Pos>, index: int, u: Pos, d1: Dir, found: seq<Action>)
    returns (res: seq<Action>)
    requires b.myUnits != [] && visible == VisibleOps(b)
    ensures res == found + PushActions(b, index, u, d1, PushDir2Options(d1))
  {
    hide PushActions;
    var p1 := MoveBy(u, d1);
    var options := PushDir2Options(d1);
    res := found;
    var m := 0;
    PushActionsSnoc(b, index, u, d1, options, 0);
    while m < |options|
      invariant 0 <= m <= |options|
      invariant res == found + PushActions(b, index, u, d1, options[..m])
    {
      var p2 := MoveBy(p1, options[m]);
      if 0 <= Height(b.grid, p2) <= Min(3, Height(b.grid, p1) + 1) && p2 !in b.myUnits && p2 !in visible {
        res := res + [Action(PushBuild, index, d1, options[m])];
      }
      PushActionsSnoc(b, index, u, d1, options, m);
      m := m + 1;
    }
    assert options[..m] == options;
  }

  /** One more second direction adds the push-and-build in that direction when its target is open. */
  lemma PushActionsSnoc(b: BoardState, index: int, u: Pos, d1: Dir, ds: seq<Dir>, k: nat)
    requires b.myUnits != [] && k <= |ds|
    ensures PushActions(b, index, u, d1, ds[..0]) == []
    ensures k < |ds| ==>
      var p1 := MoveBy(u, d1);
      PushActions(b, index, u, d1, ds[..k + 1])
        == PushActions(b, index, u, d1, ds[..k]) + (if PushTargetOk(b, p1, MoveBy(p1, ds[k])) then [Action(PushBuild, index, d1, ds[k])] else [])
  {
    if k < |ds| {
      assert ds[..k + 1][..k] == ds[..k];
    }
  }

  /** One more build direction adds the move-and-build in that direction when its target is open. */
  lemma MoveActionsSnoc(b: BoardState, index: int, u: Pos, d1: Dir, ds: seq<Dir>, k: nat)
    requires b.myUnits != [] && k <= |ds|
    ensures MoveActions(b, index, u, d1, ds[..0]) == []
    ensures k < |ds| ==>
      var p1 := MoveBy(u, d1);
      MoveActions(b, index, u, d1, ds[..k + 1])
        == MoveActions(b, index, u, d1, ds[..k]) + (if MoveTargetOk(b, u, MoveBy(p1, ds[k])) then [Action(MoveBuild, index, d1, ds[k])] else [])
  {
    if k < |ds| {
      assert ds[..k + 1][..k] == ds[..k];
    }
  }

  /** The move-and-build loop of my_legal_actions for unit u and first direction d1. */
  method AppendMoves(b: BoardState, visible: seq<Pos>, index: int, u: Pos, d1: Dir, found: seq<Action>)
    returns (res: seq<Action>)
    requires b.myUnits != [] && visible == VisibleOps(b)
    ensures res == found + MoveActions(b, index, u, d1, Directions)
  {
    hide MoveActions;
    var p1 := MoveBy(u, d1);
    res := found;
    var m := 0;
    MoveActionsSnoc(b, index, u, d1, Directions, 0);
    while m < |Directions|
      invariant 0 <= m <= |Directions|
      invariant res == found + MoveActions(b, index, u, d1, Directions[..m])
    {
      var p2 := MoveBy(p1, Directions[m]);
      if p2 == u || (0 <= Height(b.grid, p2) <= 3 && p2 !in b.myUnits && p2 !in visible) {
        res := res + [Action(MoveBuild, index, d1, Directions[m])];
      }
      MoveActionsSnoc(b, index, u, d1, Directions, m);
      m := m + 1;
    }
    assert Directions[..m] == Directions;
  }

  /** The loop of my_legal_actions over the directions a unit can step in. */
  method AppendUnitActions(b: BoardState, visible: seq<Pos>, index: int, u: Pos, found: seq<Action>)
    returns (res: seq<Action>)
    requires b.myUnits != [] && visible == VisibleOps(b)
    ensures res == found + UnitActions(b, index, u, Directions)
  {
    hide UnitActions;
    res := found;
    var k := 0;
    UnitActionsSnoc(b, index, u, Directions, 0);
    while k < |Directions|
      invariant 0 <= k <= |Directions|
      invariant res == found + UnitActions(b, index, u, Directions[..k])
    {
      var d1 := Directions[k];
      var p1 := MoveBy(u, d1);
      ghost var before := res;
      if p1 in visible {
        res := AppendPushes(b, visible, index, u, d1, res);
      } else if 0 <= Height(b.grid, p1) <= Min(3, Height(b.grid, u) + 1) && p1 !in b.myUnits {
        res := AppendMoves(b, visible, index, u, d1, res);
      }
      assert res == before + DirActions(b, index, u, d1);
      UnitActionsSnoc(b, index, u, Directions, k);
      AppendAssoc(found, UnitActions(b, index, u, Directions[..k]), DirActions(b, index, u, d1));
      k := k + 1;
    }
    assert Directions[..k] == Directions;
  }

  /** The actions for the first k + 1 directions are those for the first k, then those for direction k. */
  lemma UnitActionsSnoc(b: BoardState, index: int, u: Pos, ds: seq<Dir>, k: nat)
    requires b.myUnits != [] && k < |ds|
    ensures UnitActions(b, index, u, ds[..0]) == []
    ensures UnitActions(b, index, u, ds[..k + 1]) == UnitActions(b, index, u, ds[..k]) + DirActions(b, index, u, ds[k])
  {
    assert ds[..k + 1][..k] == ds[..k];
  }

  /** The loop of BoardState.my_legal_actions: each unit's actions, in unit order. */
  method GenerateActions(b: BoardState) returns (found: seq<Action>)
    requires b.myUnits != []
    ensures found == RawActions(b, |b.myUnits|)
  {
    hide UnitActions, FilterVisible;
    var visible := VisibleOps(b);
    found := [];
    var index := 0;
    while index < |b.myUnits|
      invariant 0 <= index <= |b.myUnits|
      invariant found == RawActions(b, index)
    {
      found := AppendUnitActions(b, visible, index, b.myUnits[index], found);
      index := index + 1;
    }
  }

  /** BoardState.my_legal_actions, with the sort the constructor applies to its result. */
  method MyLegalActions(b: BoardState) returns (actions: seq<Action>)
    requires b.myUnits != []
    ensures actions == LegalActions(b)
    ensures forall a :: a in actions <==> IsLegal(b, a)
  {
    var found := GenerateActions(b);
    actions := SortBy(found, ActionLe);
    LegalActionsExact(b);
  }

  /** BoardState.input_grid */
  method InputGrid(g: Grid) returns (text: String)
    ensures text == GridText(g)
  {
    var rows: seq<String> := [];
    var y := 0;
    while y < |g|
      invariant 0 <= y <= |g|
      invariant rows == GridRows(g, y)
    {
      var row := InputRow(g, y);
      rows := rows + [row];
      y := y + 1;
    }
    text := Join(rows, "\n");
  }

  /** The inner loop of input_grid: row y, "." for a hole and the height otherwise. */
  method InputRow(g: Grid, y: int) returns (row: String)
    ensures row == GridRow(g, y, |g|)
  {
    row := [];
    var x := 0;
    while x < |g|
      invariant 0 <= x <= |g|
      invariant row == GridRow(g, y, x)
    {
      var h := Height(g, Pos(x, y));
      if h == -1 {
        row := row + ".";
      } else {
        row := row + IntToString(h);
      }
      x := x + 1;
    }
  }

  /** The inner loop of turn_input: one "x y" line per unit. */
  method AppendUnitLines(lines: seq<String>, units: seq<Pos>) returns (res: seq<String>)
    ensures res == lines + UnitLines(units)
  {
    res := lines;
    var j := 0;
    while j < |units|
      invariant 0 <= j <= |units|
      invariant res == lines + UnitLines(units[..j])
    {
      res := res + [UnitLine(units[j])];
      assert units[..j + 1][..j] == units[..j];
      j := j + 1;
    }
    assert units[..j] == units;
  }

  /** The last loop of turn_input: one line per legal action. */
  method AppendActionLines(lines: seq<String>, legal: seq<Action>) returns (res: seq<String>)
    ensures res == lines + ActionStrings(legal)
  {
    res := lines;
    var k := 0;
    while k < |legal|
      invariant 0 <= k <= |legal|
      invariant res == lines + ActionStrings(legal[..k])
    {
      res := res + [ActionString(legal[k])];
      assert legal[..k + 1][..k] == legal[..k];
      k := k + 1;
    }
    assert legal[..k] == legal;
  }

  /** BoardState.turn_input */
  method TurnInput(b: BoardState) returns (text: String)
    requires b.myUnits != []
    ensures text == TurnText(b)
  {
    var grid := InputGrid(b.grid);
    var lines := [grid];
    var io := IoUnits(b);
    var i := 0;
    while i < |io|
      invariant 0 <= i <= |io|
      invariant lines == [grid] + UnitListLines(io, i)
    {
      lines := AppendUnitLines(lines, io[i]);
      AppendAssoc([grid], UnitListLines(io, i), UnitLines(io[i]));
      i := i + 1;
    }
    IoUnitLines(b.myUnits, IoOpUnits(b));
    var legal := MyLegalActions(b);
    lines := lines + [IntToString(|legal|)];
    lines := AppendActionLines(lines, legal);
    AppendAssoc([grid], UnitLines(b.myUnits), UnitLines(IoOpUnits(b)));
    AppendAssoc5([grid], UnitLines(b.myUnits), UnitLines(IoOpUnits(b)), [IntToString(|legal|)], ActionStrings(legal));
    text := Join(lines, "\n");
  }
}
