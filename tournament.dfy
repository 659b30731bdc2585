/**
 * A tournament: rounds of matches between seat orders drawn from a pool of
 * bot programs, with win, placement and per-arity counts, and a second set
 * of counts over the rounds whose results were not all the same.
 */
module TournamentRunner {
  import opened Wrappers
  import opened Text
  import opened Sequences
  import opened GameAdapter
  import opened MatchEngine

  // ---------------------------------------------------------------------
  // Rounds
  // ---------------------------------------------------------------------

  /**
   * The random draws behind one round: the seat orders drawn with
   * random.randrange(num_bots) until one is not all the same bot, then the
   * map and seed draws of the configuration string.
   */
  datatype RoundDraws = RoundDraws(orders: seq<seq<nat>>, mapDraw: nat, seedDraw: nat)

  /** A (player_list, config_str) pair of random_configs. */
  datatype Seating = Seating(players: seq<String>, config: String)

  /** all(i == order[0] for i in order) */
  predicate AllSame(order: seq<nat>) {
    forall i :: 0 <= i < |order| ==> order[i] == order[0]
  }

  /** Some drawn order is accepted. */
  predicate HasAccepted(orders: seq<seq<nat>>) {
    exists k :: 0 <= k < |orders| && !AllSame(orders[k])
  }

  /** Draws the source can produce and that end the rejection loop. */
  predicate DrawsFitRound(d: RoundDraws, numBots: nat, arity: nat) {
    && (forall k :: 0 <= k < |d.orders| ==> |d.orders[k]| == arity)
    && (forall k, j :: 0 <= k < |d.orders| && 0 <= j < arity ==> d.orders[k][j] < numBots)
    && HasAccepted(d.orders)
    && d.mapDraw < 3 && d.seedDraw < SeedBound
  }

  /** The index of the first order the loop accepts. */
  function FirstAccepted(orders: seq<seq<nat>>): (k: nat)
    requires HasAccepted(orders)
    ensures k < |orders| && !AllSame(orders[k])
    ensures forall j :: 0 <= j < k ==> AllSame(orders[j])
  {
    if !AllSame(orders[0]) then 0
    else
      var k := FirstAccepted(orders[1..]) + 1;
      assert forall j :: 1 <= j < k ==> orders[j] == orders[1..][j - 1];
      k
  }

  /** The seats of rotation i: seat j plays program (order[j] + i) mod num_bots. */
  function Rotation(names: seq<String>, order: seq<nat>, i: nat): (r: seq<String>)
    requires |names| > 0
    ensures |r| == |order|
  {
    if order == [] then []
    else Rotation(names, order[..|order| - 1], i) + [names[(order[|order| - 1] + i) % |names|]]
  }

  lemma {:induction false} RotationAt(names: seq<String>, order: seq<nat>, i: nat)
    requires |names| > 0
    ensures forall j :: 0 <= j < |order| ==> Rotation(names, order, i)[j] == names[(order[j] + i) % |names|]
  {
    if order != [] {
      var init, last := order[..|order| - 1], order[|order| - 1];
      RotationAt(names, init, i);
      var r := Rotation(names, order, i);
      assert r == Rotation(names, init, i) + [names[(last + i) % |names|]];
      forall j | 0 <= j < |order| ensures r[j] == names[(order[j] + i) % |names|] {
        if j < |init| {
          assert init[j] == order[j] && r[j] == Rotation(names, init, i)[j];
        } else {
          assert order[j] == last && r[j] == names[(last + i) % |names|];
        }
      }
    }
  }

  /** Rotations 0 to k - 1 of order, each with the configuration string config. */
  function Seatings(names: seq<String>, order: seq<nat>, config: String, k: nat): (r: seq<Seating>)
    requires |names| > 0
    ensures |r| == k
  {
    if k == 0 then [] else Seatings(names, order, config, k - 1) + [Seating(Rotation(names, order, k - 1), config)]
  }

  lemma {:induction false} SeatingsAt(names: seq<String>, order: seq<nat>, config: String, k: nat)
    requires |names| > 0
    ensures forall i :: 0 <= i < k ==> Seatings(names, order, config, k)[i] == Seating(Rotation(names, order, i), config)
  {
    if k > 0 {
      SeatingsAt(names, order, config, k - 1);
    }
  }

  /** The configurations of one round: every rotation of the accepted order, with one shared configuration string. */
  function RoundSeatings(names: seq<String>, d: RoundDraws): (r: seq<Seating>)
    requires |names| > 0 && HasAccepted(d.orders)
    ensures |r| == |names|
  {
    Seatings(names, d.orders[FirstAccepted(d.orders)], FormatConfig(Config(d.mapDraw, d.seedDraw)), |names|)
  }

  /**
   * The seatings in the order play_all_games plays them: round after round,
   * each popped from its end. A round whose orders are all rejected never
   * ends in the source; it contributes nothing here, and play_all_games is
   * only modelled on draws whose rounds all end.
   */
  function Schedule(names: seq<String>, draws: seq<RoundDraws>): seq<Seating>
    requires |names| > 0
  {
    if draws == [] then []
    else
      var d := draws[|draws| - 1];
      Schedule(names, draws[..|draws| - 1]) + (if HasAccepted(d.orders) then Reverse(RoundSeatings(names, d)) else [])
  }

  /** The rejection loop of generate_random_configurations: keep drawing until the order is not all one bot. */
  method DrawOrder(orders: seq<seq<nat>>) returns (accepted: seq<nat>)
    requires HasAccepted(orders)
    ensures accepted == orders[FirstAccepted(orders)] && !AllSame(accepted)
  {
    var order: Option<seq<nat>> := None;
    var k := 0;
    while order == None || AllSame(order.value)
      invariant 0 <= k <= FirstAccepted(orders) + 1
      invariant order == None <==> k == 0
      invariant k > 0 ==> order == Some(orders[k - 1])
      decreases FirstAccepted(orders) + 1 - k
    {
      order := Some(orders[k]);
      k := k + 1;
    }
    accepted := order.value;
  }

  /** The rotation loop of generate_random_configurations: rotation i for i in range(num_bots). */
  method Rotations(names: seq<String>, order: seq<nat>, config: String) returns (configs: seq<Seating>)
    requires |names| > 0
    ensures configs == Seatings(names, order, config, |names|)
  {
    configs := [];
    var i := 0;
    while i < |names|
      invariant 0 <= i <= |names|
      invariant configs == Seatings(names, order, config, i)
    {
      configs := configs + [Seating(Rotation(names, order, i), config)];
      i := i + 1;
    }
  }

  // ---------------------------------------------------------------------
  // Counting tables
  // ---------------------------------------------------------------------

  /** A key of the placements tables: (program name, arity, place). */
  datatype PlaceKey = PlaceKey(name: String, arity: int, place: int)

  /** One recorded match: its results (seats, winner first) and the name in each seat. */
  datatype Played = Played(results: seq<nat>, players: seq<String>)

  /** The arities the tables have rows for. */
  const Arities: set<int> := {2, 3, 4}

  /** The program in seat results[k] took place k. */
  predicate PlacedAt(g: Played, k: int, name: String) {
    0 <= k < |g.results| && g.results[k] < |g.players| && g.players[g.results[k]] == name
  }

  function WinCount(name: String, games: seq<Played>): nat {
    if games == [] then 0
    else WinCount(name, games[..|games| - 1]) + (if PlacedAt(games[|games| - 1], 0, name) then 1 else 0)
  }

  function PlaceCount(key: PlaceKey, games: seq<Played>): nat {
    if games == [] then 0
    else
      var g := games[|games| - 1];
      PlaceCount(key, games[..|games| - 1]) + (if |g.players| == key.arity && PlacedAt(g, key.place, key.name) then 1 else 0)
  }

  function ArityCount(a: int, games: seq<Played>): nat {
    if games == [] then 0
    else ArityCount(a, games[..|games| - 1]) + (if |games[|games| - 1].players| == a then 1 else 0)
  }

  /** wins, placements and totals_by_arity (or their diff_ counterparts). */
  datatype Tally = Tally(wins: map<String, int>, placements: map<PlaceKey, int>, totals: map<int, int>)

  function NameSet(names: seq<String>): set<String> {
    set n | n in names
  }

  function PlaceKeys(names: seq<String>): set<PlaceKey> {
    set n, a, i | n in names && a in Arities && 0 <= i < a :: PlaceKey(n, a, i)
  }

  /** The tables as Tournament.__init__ creates them: every counter at 0. */
  function EmptyTally(names: seq<String>): Tally {
    Tally(map n | n in NameSet(names) :: 0, map k | k in PlaceKeys(names) :: 0, map a | a in Arities :: 0)
  }

  /** A match the tables have keys for: arity 2 to 4, at least a winner, and programs of the pool in the seats. */
  predicate Fits(g: Played, names: seq<String>) {
    && |g.players| in Arities
    && 1 <= |g.results| <= |g.players|
    && (forall k :: 0 <= k < |g.results| ==> g.results[k] < |g.players|)
    && (forall j :: 0 <= j < |g.players| ==> g.players[j] in names)
  }

  /** Every match of the history fits the tables. */
  predicate AllFit(games: seq<Played>, names: seq<String>) {
    forall k :: 0 <= k < |games| ==> Fits(games[k], names)
  }

  lemma AllFitSnoc(games: seq<Played>, g: Played, names: seq<String>)
    requires AllFit(games, names) && Fits(g, names)
    ensures AllFit(games + [g], names)
  {
  }

  lemma AllFitConcat(a: seq<Played>, b: seq<Played>, names: seq<String>)
    requires AllFit(a, names) && AllFit(b, names)
    ensures AllFit(a + b, names)
  {
    forall k | 0 <= k < |a + b| ensures Fits((a + b)[k], names) {
      if k >= |a| {
        assert (a + b)[k] == b[k - |a|];
      }
    }
  }

  /** The key set of tables built from EmptyTally. */
  predicate HasKeys(t: Tally, names: seq<String>) {
    t.wins.Keys == NameSet(names) && t.placements.Keys == PlaceKeys(names) && t.totals.Keys == Arities
  }

  /** One more count under key k; a key not yet present counts from 0. */
  function Bump<K>(m: map<K, int>, k: K): (r: map<K, int>)
    ensures r.Keys == m.Keys + {k}
  {
    m[k := (if k in m then m[k] else 0) + 1]
  }

  /** The placements after counting the first n places of match g (a place naming no seat counts nowhere). */
  function PlaceBumps(p: map<PlaceKey, int>, g: Played, n: nat): map<PlaceKey, int>
    requires n <= |g.results|
  {
    if n == 0 then p
    else
      var q := PlaceBumps(p, g, n - 1);
      if g.results[n - 1] < |g.players| then Bump(q, PlaceKey(g.players[g.results[n - 1]], |g.players|, n - 1)) else q
  }

  /**
   * The tables after one more match: one more match for its arity, one more
   * win for the program in the winning seat, and one more placement for each
   * place the match had. A match without a winning seat, which a finished
   * match never is, adds no win.
   */
  function Step(t: Tally, g: Played): Tally {
    var wins := if 1 <= |g.results| && g.results[0] < |g.players| then Bump(t.wins, g.players[g.results[0]]) else t.wins;
    Tally(wins, PlaceBumps(t.placements, g, |g.results|), Bump(t.totals, |g.players|))
  }

  /** The tables after counting the matches of `games` one by one, starting from t. */
  function TallyFrom(t: Tally, games: seq<Played>): Tally {
    if games == [] then t
    else Step(TallyFrom(t, games[..|games| - 1]), games[|games| - 1])
  }

  /** Counting one more match of a sequence is one more step. */
  lemma TallyFromSnoc(t: Tally, games: seq<Played>, k: nat)
    requires k < |games|
    ensures TallyFrom(t, games[..k + 1]) == Step(TallyFrom(t, games[..k]), games[k])
  {
    assert games[..k + 1][..k] == games[..k];
  }

  /** Counting a + b is counting a, then b. */
  lemma {:induction false} TallyFromConcat(t: Tally, a: seq<Played>, b: seq<Played>)
    ensures TallyFrom(t, a + b) == TallyFrom(TallyFrom(t, a), b)
  {
    if b == [] {
      assert a + b == a;
    } else {
      var n := |b| - 1;
      TallyFromConcat(t, a, b[..n]);
      assert (a + b)[..|a + b| - 1] == a + b[..n];
    }
  }

  /** The tables after counting `games` from empty. */
  function TallyOf(names: seq<String>, games: seq<Played>): Tally {
    TallyFrom(EmptyTally(names), games)
  }

  /** Counting place by place adds one for each place the match had, under its key. */
  lemma PlaceBumpsSpec(p: map<PlaceKey, int>, g: Played, n: nat, names: seq<String>)
    requires n <= |g.results| && Fits(g, names) && p.Keys == PlaceKeys(names)
    ensures PlaceBumps(p, g, n).Keys == p.Keys
    ensures forall k :: k in p ==>
      PlaceBumps(p, g, n)[k] == p[k] + (if k.arity == |g.players| && k.place < n && PlacedAt(g, k.place, k.name) then 1 else 0)
  {
    PlaceBumpsKeys(p, g, n, names);
    forall k | k in p
      ensures PlaceBumps(p, g, n)[k] == p[k] + (if k.arity == |g.players| && k.place < n && PlacedAt(g, k.place, k.name) then 1 else 0)
    {
      PlaceBumpsAt(p, g, n, k);
    }
  }

  /** The keys the first n places bump are keys the tables were created with. */
  lemma {:induction false} PlaceBumpsKeys(p: map<PlaceKey, int>, g: Played, n: nat, names: seq<String>)
    requires n <= |g.results| && Fits(g, names) && p.Keys == PlaceKeys(names)
    ensures PlaceBumps(p, g, n).Keys == p.Keys
  {
    if n > 0 {
      PlaceBumpsKeys(p, g, n - 1, names);
      var seat := g.results[n - 1];
      InPlaceKeys(PlaceKey(g.players[seat], |g.players|, n - 1), names);
    }
  }

  /** The counter of one key after counting the first n places. */
  lemma {:induction false} PlaceBumpsAt(p: map<PlaceKey, int>, g: Played, n: nat, k: PlaceKey)
    requires n <= |g.results| && k in p
    ensures k in PlaceBumps(p, g, n)
    ensures PlaceBumps(p, g, n)[k] == p[k] + (if k.arity == |g.players| && k.place < n && PlacedAt(g, k.place, k.name) then 1 else 0)
  {
    if n > 0 {
      PlaceBumpsAt(p, g, n - 1, k);
      if k.arity == |g.players| && k.place == n - 1 && PlacedAt(g, k.place, k.name) {
        assert k == PlaceKey(g.players[g.results[n - 1]], |g.players|, n - 1);
      }
    }
  }

  /** Counting a match that fits keeps the keys the tables were created with. */
  lemma StepKeys(t: Tally, g: Played, names: seq<String>)
    requires HasKeys(t, names) && Fits(g, names)
    ensures HasKeys(Step(t, g), names)
  {
    PlaceBumpsSpec(t.placements, g, |g.results|, names);
  }

  /** Every counter counts the matches of `games` it is about, and the tables have the initial keys. */
  ghost predicate Counts(t: Tally, names: seq<String>, games: seq<Played>) {
    && HasKeys(t, names)
    && (forall n :: n in t.wins ==> t.wins[n] == WinCount(n, games))
    && (forall k :: k in t.placements ==> t.placements[k] == PlaceCount(k, games))
    && (forall a :: a in t.totals ==> t.totals[a] == ArityCount(a, games))
  }

  /** Counting one more match in tables that count `games` gives tables that count `games + [g]`. */
  lemma StepCounts(t: Tally, g: Played, names: seq<String>, games: seq<Played>)
    requires Counts(t, names, games) && Fits(g, names)
    ensures Counts(Step(t, g), names, games + [g])
  {
    StepKeys(t, g, names);
    StepWins(t, g, names, games);
    StepPlaces(t, g, names, games);
    StepTotals(t, g, games);
  }

  lemma StepWins(t: Tally, g: Played, names: seq<String>, games: seq<Played>)
    requires t.wins.Keys == NameSet(names) && Fits(g, names)
    requires forall n :: n in t.wins ==> t.wins[n] == WinCount(n, games)
    ensures forall n :: n in Step(t, g).wins ==> Step(t, g).wins[n] == WinCount(n, games + [g])
  {
    CountsSnoc(games, g);
    assert g.players[g.results[0]] in t.wins;
  }

  lemma StepPlaces(t: Tally, g: Played, names: seq<String>, games: seq<Played>)
    requires t.placements.Keys == PlaceKeys(names) && Fits(g, names)
    requires forall k :: k in t.placements ==> t.placements[k] == PlaceCount(k, games)
    ensures forall k :: k in Step(t, g).placements ==> Step(t, g).placements[k] == PlaceCount(k, games + [g])
  {
    CountsSnoc(games, g);
    PlaceBumpsSpec(t.placements, g, |g.results|, names);
  }

  lemma StepTotals(t: Tally, g: Played, games: seq<Played>)
    requires t.totals.Keys == Arities && |g.players| in Arities
    requires forall a :: a in t.totals ==> t.totals[a] == ArityCount(a, games)
    ensures forall a :: a in Step(t, g).totals ==> Step(t, g).totals[a] == ArityCount(a, games + [g])
  {
    CountsSnoc(games, g);
  }

  /** The tables built match by match from empty hold, for every program, arity and place, the number of matches that counts. */
  lemma {:induction false} TallyOfCounts(names: seq<String>, games: seq<Played>)
    requires AllFit(games, names)
    ensures Counts(TallyOf(names, games), names, games)
  {
    hide Counts, TallyOf;
    if games == [] {
      CountsNone(names);
    } else {
      var init := games[..|games| - 1];
      var g := games[|games| - 1];
      assert AllFit(init, names) by {
        forall k | 0 <= k < |init| ensures Fits(init[k], names) {
          assert init[k] == games[k];
        }
      }
      TallyOfCounts(names, init);
      CountsOneMore(names, init, g);
      assert init + [g] == games;
    }
  }

  /** The tables as created count no match. */
  lemma CountsNone(names: seq<String>)
    ensures Counts(TallyOf(names, []), names, [])
  {
  }

  /** The inductive step of TallyOfCounts. */
  lemma CountsOneMore(names: seq<String>, init: seq<Played>, g: Played)
    requires Counts(TallyOf(names, init), names, init) && Fits(g, names)
    ensures Counts(TallyOf(names, init + [g]), names, init + [g])
  {
    TallyFromSnocOne(EmptyTally(names), init, g);
    StepCounts(TallyOf(names, init), g, names, init);
  }

  lemma InPlaceKeys(k: PlaceKey, names: seq<String>)
    requires k.name in names && k.arity in Arities && 0 <= k.place < k.arity
    ensures k in PlaceKeys(names)
  {
    assert k == PlaceKey(k.name, k.arity, k.place);
  }

  /**
   * The counting part of play_game, and of the diff step for each match of
   * a round.
   */
  method AddToTally(t: Tally, g: Played, ghost names: seq<String>) returns (r: Tally)
    requires HasKeys(t, names) && Fits(g, names)
    ensures r == Step(t, g)
  {
    var arity := |g.players|;
    var totals := t.totals[arity := t.totals[arity] + 1];
    var winner := g.players[g.results[0]];
    var wins := t.wins[winner := t.wins[winner] + 1];
    var placements := AddPlacements(t.placements, g, names);
    r := Tally(wins, placements, totals);
  }

  /** The placements loop of play_game: one more count for each place the match had. */
  method AddPlacements(p: map<PlaceKey, int>, g: Played, ghost names: seq<String>) returns (r: map<PlaceKey, int>)
    requires p.Keys == PlaceKeys(names) && Fits(g, names)
    ensures r == PlaceBumps(p, g, |g.results|)
  {
    var arity := |g.players|;
    r := p;
    var place := 0;
    while place < |g.results|
      invariant 0 <= place <= |g.results|
      invariant r == PlaceBumps(p, g, place)
      invariant r.Keys == p.Keys
    {
      var key := PlaceKey(g.players[g.results[place]], arity, place);
      InPlaceKeys(key, names);
      r := r[key := r[key] + 1];
      place := place + 1;
    }
  }

  /** Counting one more match adds its own contribution to each counter. */
  lemma CountsSnoc(games: seq<Played>, g: Played)
    ensures forall n :: WinCount(n, games + [g]) == WinCount(n, games) + (if PlacedAt(g, 0, n) then 1 else 0)
    ensures forall k :: PlaceCount(k, games + [g]) == PlaceCount(k, games) + (if |g.players| == k.arity && PlacedAt(g, k.place, k.name) then 1 else 0)
    ensures forall a :: ArityCount(a, games + [g]) == ArityCount(a, games) + (if |g.players| == a then 1 else 0)
  {
    assert (games + [g])[..|games|] == games;
  }

  // ---------------------------------------------------------------------
  // Wins add up to the number of matches
  // ---------------------------------------------------------------------

  function SumWins(keys: seq<String>, games: seq<Played>): int {
    if keys == [] then 0 else WinCount(keys[0], games) + SumWins(keys[1..], games)
  }

  function SumOver(m: map<String, int>, keys: seq<String>): int
    requires forall k :: k in keys ==> k in m
  {
    if keys == [] then 0 else m[keys[0]] + SumOver(m, keys[1..])
  }

  /** The number of keys naming the winner of g. */
  function WinnerHits(keys: seq<String>, g: Played): nat {
    if keys == [] then 0 else (if PlacedAt(g, 0, keys[0]) then 1 else 0) + WinnerHits(keys[1..], g)
  }

  lemma {:induction false} WinnerHitsOnce(keys: seq<String>, g: Played)
    requires NoDup(keys) && 1 <= |g.results| && g.results[0] < |g.players|
    ensures WinnerHits(keys, g) == if g.players[g.results[0]] in keys then 1 else 0
  {
    if keys != [] {
      assert NoDup(keys[1..]) by {
        forall i, j | 0 <= i < j < |keys[1..]| ensures keys[1..][i] != keys[1..][j] {
          assert keys[1..][i] == keys[i + 1] && keys[1..][j] == keys[j + 1];
        }
      }
      WinnerHitsOnce(keys[1..], g);
      if PlacedAt(g, 0, keys[0]) {
        assert keys[0] !in keys[1..] by {
          forall i | 0 <= i < |keys[1..]| ensures keys[1..][i] != keys[0] {
            assert keys[1..][i] == keys[i + 1];
          }
        }
      }
    }
  }

  lemma {:induction false} SumWinsSnoc(keys: seq<String>, games: seq<Played>, g: Played)
    ensures SumWins(keys, games + [g]) == SumWins(keys, games) + WinnerHits(keys, g)
  {
    if keys != [] {
      SumWinsSnoc(keys[1..], games, g);
      CountsSnoc(games, g);
    }
  }

  /** Over distinct keys that cover every winner, the win counts add up to the number of matches. */
  lemma {:induction false} SumWinsIsGames(keys: seq<String>, games: seq<Played>)
    requires NoDup(keys)
    requires forall i :: 0 <= i < |games| ==>
      1 <= |games[i].results| && games[i].results[0] < |games[i].players| && games[i].players[games[i].results[0]] in keys
    ensures SumWins(keys, games) == |games|
  {
    if games == [] {
      SumWinsEmpty(keys);
    } else {
      var init := games[..|games| - 1];
      var g := games[|games| - 1];
      assert init + [g] == games;
      SumWinsIsGames(keys, init);
      SumWinsSnoc(keys, init, g);
      WinnerHitsOnce(keys, g);
    }
  }

  lemma {:induction false} SumWinsEmpty(keys: seq<String>)
    ensures SumWins(keys, []) == 0
  {
    if keys != [] {
      SumWinsEmpty(keys[1..]);
    }
  }

  lemma {:induction false} SumOverCounts(t: Tally, names: seq<String>, games: seq<Played>, keys: seq<String>)
    requires Counts(t, names, games)
    requires forall k :: k in keys ==> k in names
    ensures forall k :: k in keys ==> k in t.wins
    ensures SumOver(t.wins, keys) == SumWins(keys, games)
  {
    if keys != [] {
      SumOverCounts(t, names, games, keys[1..]);
    }
  }

  // ---------------------------------------------------------------------
  // Error and warning lists
  // ---------------------------------------------------------------------

  /** The ids appended for `name`: one per flagged seat it occupies, seats in order. */
  function SeatIds(id: int, name: String, players: seq<String>, flags: seq<bool>): seq<int> {
    if players == [] then []
    else
      var n := |players| - 1;
      SeatIds(id, name, players[..n], flags) + (if n < |flags| && flags[n] && players[n] == name then [id] else [])
  }

  /** The seats the program occupies whose flag is set. */
  ghost function FlaggedSeats(name: String, players: seq<String>, flags: seq<bool>): set<nat>
    requires |flags| == |players|
  {
    set j: nat | j < |players| && flags[j] && players[j] == name
  }

  /**
   * Only this match's id is added, and it is added once for each flagged seat
   * the program sat in (twice when it plays itself in two flagged seats).
   */
  lemma {:induction false} SeatIdsSpec(id: int, name: String, players: seq<String>, flags: seq<bool>)
    requires |flags| == |players|
    ensures forall x :: x in SeatIds(id, name, players, flags) ==> x == id
    ensures |SeatIds(id, name, players, flags)| == |FlaggedSeats(name, players, flags)|
  {
    if players != [] {
      var n := |players| - 1;
      SeatIdsSpec(id, name, players[..n], flags[..n]);
      SeatIdsPrefix(id, name, players[..n], flags, n);
      var before := FlaggedSeats(name, players[..n], flags[..n]);
      assert n !in before;
      if flags[n] && players[n] == name {
        assert FlaggedSeats(name, players, flags) == before + {n};
      } else {
        assert FlaggedSeats(name, players, flags) == before;
      }
    }
  }

  /** Only the first |players| flags are read. */
  lemma {:induction false} SeatIdsPrefix(id: int, name: String, players: seq<String>, flags: seq<bool>, n: nat)
    requires |players| <= n <= |flags|
    ensures SeatIds(id, name, players, flags[..n]) == SeatIds(id, name, players, flags)
  {
    if players != [] {
      SeatIdsPrefix(id, name, players[..|players| - 1], flags, n);
    }
  }

  /** The seats up to k + 1 add the id of seat k when it is flagged and the program sat there. */
  lemma SeatIdsSnoc(id: int, name: String, players: seq<String>, flags: seq<bool>, k: nat)
    requires k <= |players| && |players| <= |flags|
    ensures SeatIds(id, name, players[..0], flags) == []
    ensures k < |players| ==>
      SeatIds(id, name, players[..k + 1], flags)
        == SeatIds(id, name, players[..k], flags) + (if flags[k] && players[k] == name then [id] else [])
  {
    if k < |players| {
      assert players[..k + 1][..k] == players[..k];
    }
  }

  /** Every program's list gains the match id for each flagged seat it sat in. */
  function AddIds(m: map<String, seq<int>>, id: int, players: seq<String>, flags: seq<bool>): map<String, seq<int>> {
    map n | n in m :: m[n] + SeatIds(id, n, players, flags)
  }

  /** The loops of play_game over issue_logs and over warnings: add the match id for each flagged seat. */
  method AppendIds(m: map<String, seq<int>>, id: int, players: seq<String>, flags: seq<bool>) returns (r: map<String, seq<int>>)
    requires |flags| == |players| && forall j :: 0 <= j < |players| ==> players[j] in m
    ensures r.Keys == m.Keys && r == AddIds(m, id, players, flags)
  {
    hide SeatIds;
    r := m;
    var i := 0;
    forall n ensures SeatIds(id, n, players[..0], flags) == [] {
      SeatIdsSnoc(id, n, players, flags, 0);
    }
    while i < |players|
      invariant 0 <= i <= |players|
      invariant r.Keys == m.Keys
      invariant forall n :: n in r ==> r[n] == m[n] + SeatIds(id, n, players[..i], flags)
    {
      ghost var prev := r;
      if flags[i] {
        r := r[players[i] := r[players[i]] + [id]];
      }
      forall n | n in r ensures r[n] == m[n] + SeatIds(id, n, players[..i + 1], flags) {
        SeatIdsSnoc(id, n, players, flags, i);
        if flags[i] && players[i] == n {
          AppendAssoc(m[n], SeatIds(id, n, players[..i], flags), [id]);
        } else {
          assert r[n] == prev[n];
        }
      }
      i := i + 1;
    }
    assert players[..i] == players;
    assert forall n :: n in r ==> r[n] == AddIds(m, id, players, flags)[n];
  }

  // ---------------------------------------------------------------------
  // The tournament
  // ---------------------------------------------------------------------

  /** The matches recorded so far, pairing results with player lists. */
  function History(rs: seq<seq<nat>>, ls: seq<seq<String>>): (h: seq<Played>)
    requires |rs| == |ls|
    ensures |h| == |rs|
  {
    if rs == [] then []
    else History(rs[..|rs| - 1], ls[..|ls| - 1]) + [Played(rs[|rs| - 1], ls[|ls| - 1])]
  }

  lemma HistorySnoc(rs: seq<seq<nat>>, ls: seq<seq<String>>, r: seq<nat>, l: seq<String>)
    requires |rs| == |ls|
    ensures History(rs + [r], ls + [l]) == History(rs, ls) + [Played(r, l)]
  {
    assert (rs + [r])[..|rs|] == rs && (ls + [l])[..|ls|] == ls;
  }

  /** The results of the matches of a history, in order. */
  function ResultsOf(h: seq<Played>): (rs: seq<seq<nat>>)
    ensures |rs| == |h|
  {
    if h == [] then [] else ResultsOf(h[..|h| - 1]) + [h[|h| - 1].results]
  }

  lemma ResultsOfSnoc(h: seq<Played>, g: Played)
    ensures ResultsOf(h + [g]) == ResultsOf(h) + [g.results]
  {
    assert (h + [g])[..|h|] == h;
  }

  lemma {:induction false} ResultsOfConcat(a: seq<Played>, b: seq<Played>)
    ensures ResultsOf(a + b) == ResultsOf(a) + ResultsOf(b)
  {
    if b != [] {
      var c := b[..|b| - 1];
      var x := b[|b| - 1];
      ResultsOfConcat(a, c);
      assert b == c + [x];
      assert a + b == (a + c) + [x];
      ResultsOfSnoc(a + c, x);
      ResultsOfSnoc(c, x);
      AppendAssoc(ResultsOf(a), ResultsOf(c), [x.results]);
    } else {
      assert a + b == a;
    }
  }

  /** Keeping the results of one more match of a sequence. */
  lemma ResultsOfPrefix(dr: seq<seq<nat>>, games: seq<Played>, k: nat)
    requires k < |games|
    ensures dr + ResultsOf(games[..k + 1]) == dr + ResultsOf(games[..k]) + [games[k].results]
  {
    TakeSnoc(games, k);
    ResultsOfSnoc(games[..k], games[k]);
    AppendAssoc(dr, ResultsOf(games[..k]), [games[k].results]);
  }

  /** The win counts of tables that count a history of fitting matches add up to the number of matches. */
  lemma WinsAddUp(names: seq<String>, h: seq<Played>, keys: seq<String>)
    requires AllFit(h, names)
    requires NoDup(keys) && forall n :: n in keys <==> n in names
    ensures forall k :: k in keys ==> k in TallyOf(names, h).wins
    ensures SumOver(TallyOf(names, h).wins, keys) == |h|
  {
    TallyOfCounts(names, h);
    SumOverCounts(TallyOf(names, h), names, h, keys);
    SumWinsIsGames(keys, h);
  }

  /** What play_game reads from a finished match: its loss order, its issue logs and its warnings, per seat. */
  datatype Finished = Finished(lossOrder: seq<nat>, issueLogs: seq<Option<IssueLog>>, warnings: seq<seq<WarningEntry>>)

  /** A match over `arity` seats that ran to its end: every seat is in the loss order once. */
  predicate FinishedFits(f: Finished, arity: nat) {
    && |f.lossOrder| == arity && NoDup(f.lossOrder)
    && (forall k :: 0 <= k < |f.lossOrder| ==> f.lossOrder[k] < arity)
    && |f.issueLogs| == arity && |f.warnings| == arity
  }

  /**
   * A match that ran to its end, every process stopped as end_of_game leaves
   * them, hands play_game a result that fits its seats.
   */
  lemma MatchFinishedFits(m: Match)
    requires m.Valid() && forall p :: 0 <= p < m.playerCount ==> !m.live[p]
    ensures FinishedFits(Finished(m.lossOrder, m.issueLogs, m.warnings), m.playerCount)
  {
    PermutationFromCover(m.lossOrder, m.playerCount);
    PermutationOfRangeFacts(m.lossOrder, m.playerCount);
  }

  /** The seats with an issue log. */
  function IssueFlags(logs: seq<Option<IssueLog>>): (flags: seq<bool>)
    ensures |flags| == |logs| && forall i :: 0 <= i < |logs| ==> (flags[i] <==> logs[i].Some?)
  {
    seq(|logs|, i requires 0 <= i < |logs| => logs[i].Some?)
  }

  /** The seats with at least one warning. */
  function WarningFlags(warnings: seq<seq<WarningEntry>>): (flags: seq<bool>)
    ensures |flags| == |warnings| && forall i :: 0 <= i < |warnings| ==> (flags[i] <==> warnings[i] != [])
  {
    seq(|warnings|, i requires 0 <= i < |warnings| => warnings[i] != [])
  }

  /**
   * The error loop of play_game: a program's error list keeps its old ids and
   * gains the match id once per seat it sat in whose issue log is set.
   */
  lemma ErrorIdsPerSeat(m: map<String, seq<int>>, id: int, players: seq<String>, logs: seq<Option<IssueLog>>, name: String)
    requires |logs| == |players| && name in m
    ensures name in AddIds(m, id, players, IssueFlags(logs))
    ensures var r := AddIds(m, id, players, IssueFlags(logs))[name];
      && r[..|m[name]|] == m[name]
      && |r| == |m[name]| + |set j: nat | j < |players| && players[j] == name && logs[j].Some?|
      && forall k :: |m[name]| <= k < |r| ==> r[k] == id
  {
    var flags := IssueFlags(logs);
    SeatIdsSpec(id, name, players, flags);
    assert FlaggedSeats(name, players, flags) == set j: nat | j < |players| && players[j] == name && logs[j].Some?;
    var added := SeatIds(id, name, players, flags);
    forall k | |m[name]| <= k < |m[name] + added| ensures (m[name] + added)[k] == id {
      assert added[k - |m[name]|] in added;
    }
  }

  /**
   * The warning loop of play_game: a program's warning list keeps its old ids
   * and gains the match id once per seat it sat in with a non-empty warning list.
   */
  lemma WarningIdsPerSeat(m: map<String, seq<int>>, id: int, players: seq<String>, warnings: seq<seq<WarningEntry>>, name: String)
    requires |warnings| == |players| && name in m
    ensures name in AddIds(m, id, players, WarningFlags(warnings))
    ensures var r := AddIds(m, id, players, WarningFlags(warnings))[name];
      && r[..|m[name]|] == m[name]
      && |r| == |m[name]| + |set j: nat | j < |players| && players[j] == name && warnings[j] != []|
      && forall k :: |m[name]| <= k < |r| ==> r[k] == id
  {
    var flags := WarningFlags(warnings);
    SeatIdsSpec(id, name, players, flags);
    assert FlaggedSeats(name, players, flags) == set j: nat | j < |players| && players[j] == name && warnings[j] != [];
    var added := SeatIds(id, name, players, flags);
    forall k | |m[name]| <= k < |m[name] + added| ensures (m[name] + added)[k] == id {
      assert added[k - |m[name]|] in added;
    }
  }

  /** The results of a finished match, winner first, fit the tables. */
  lemma FinishedResultsFit(f: Finished, players: seq<String>, names: seq<String>)
    requires |players| in Arities && FinishedFits(f, |players|)
    requires forall j :: 0 <= j < |players| ==> players[j] in names
    ensures Fits(Played(Reverse(f.lossOrder), players), names)
  {
    ReverseAt(f.lossOrder);
  }

  // ---------------------------------------------------------------------
  // Rounds whose results differ
  // ---------------------------------------------------------------------

  /** The results of a round are not all the same. */
  predicate RoundDiffers(round: seq<Played>) {
    exists k :: 0 <= k < |round| && round[k].results != round[0].results
  }

  /** A round differs exactly when its results, as a set, have more than one element. */
  lemma RoundDiffersIff(round: seq<Played>)
    ensures RoundDiffers(round) <==> |set g | g in round :: g.results| > 1
  {
    var rs := set g | g in round :: g.results;
    if RoundDiffers(round) {
      var k :| 0 <= k < |round| && round[k].results != round[0].results;
      var two := {round[0].results, round[k].results};
      assert round[0] in round && round[k] in round;
      assert two <= rs;
      assert |two| == 2;
      SubsetCard(two, rs);
    } else if round == [] {
      assert rs == {};
    } else {
      forall x | x in rs ensures x == round[0].results {
        var g :| g in round && g.results == x;
        var k :| 0 <= k < |round| && round[k] == g;
      }
      assert round[0] in round;
      assert rs == {round[0].results};
    }
  }

  lemma SubsetCard<T>(a: set<T>, b: set<T>)
    requires a <= b
    ensures |a| <= |b|
  {
    assert b == a + (b - a);
  }

  /** The history cut into consecutive rounds of n matches, an incomplete last round left out. */
  function Chunks(games: seq<Played>, n: nat): seq<seq<Played>>
    requires n > 0
  {
    if |games| < n then [] else [games[..n]] + Chunks(games[n..], n)
  }

  function Flatten(rounds: seq<seq<Played>>): seq<Played> {
    if rounds == [] then [] else Flatten(rounds[..|rounds| - 1]) + rounds[|rounds| - 1]
  }

  lemma {:induction false} FlattenCons(r: seq<Played>, rounds: seq<seq<Played>>)
    ensures Flatten([r] + rounds) == r + Flatten(rounds)
  {
    if rounds != [] {
      var init := rounds[..|rounds| - 1];
      assert ([r] + rounds)[..|rounds|] == [r] + init;
      FlattenCons(r, init);
    }
  }

  /** How many matches of the current round have been played after i matches, rounds having n matches each. */
  function Pos(i: nat, n: nat): (p: nat)
    requires n > 0
    ensures p < n
  {
    if i == 0 then 0 else if Pos(i - 1, n) + 1 == n then 0 else Pos(i - 1, n) + 1
  }

  lemma {:induction false} PosSmall(i: nat, n: nat)
    requires 0 < n && i < n
    ensures Pos(i, n) == i
  {
    if i > 0 {
      PosSmall(i - 1, n);
    }
  }

  lemma {:induction false} PosAtMost(i: nat, n: nat)
    requires n > 0
    ensures Pos(i, n) <= i
  {
    if i > 0 {
      PosAtMost(i - 1, n);
    }
  }

  /** Positions repeat with period n. */
  lemma {:induction false} PosPeriod(i: nat, n: nat)
    requires n > 0
    ensures Pos(i + n, n) == Pos(i, n)
  {
    if i == 0 {
      PosSmall(n - 1, n);
    } else {
      PosPeriod(i - 1, n);
    }
  }

  /** Whole rounds hold all the matches but those of the unfinished round. */
  lemma {:induction false} FlattenChunksLength(games: seq<Played>, n: nat)
    requires n > 0
    ensures |Flatten(Chunks(games, n))| == |games| - Pos(|games|, n)
    decreases |games|
  {
    if |games| < n {
      PosSmall(|games|, n);
    } else {
      FlattenCons(games[..n], Chunks(games[n..], n));
      FlattenChunksLength(games[n..], n);
      PosPeriod(|games| - n, n);
    }
  }

  /** One more match completes a round exactly when the number of matches becomes a multiple of n. */
  lemma {:induction false} ChunksSnoc(games: seq<Played>, x: Played, n: nat)
    requires n > 0
    ensures Chunks(games + [x], n) ==
      Chunks(games, n) + (if |games| + 1 >= n && Pos(|games| + 1, n) == 0 then [(games + [x])[|games| + 1 - n..]] else [])
    decreases |games|, 2
  {
    if |games| >= n {
      ChunksSnocLong(games, x, n);
    } else if |games| + 1 == n {
      var g := games + [x];
      assert g[..n] == g && g[n..] == [];
      PosSmall(n - 1, n);
    } else {
      PosSmall(|games| + 1, n);
    }
  }

  /** ChunksSnoc past the first round: the first round stays, the rest is the same step. */
  lemma {:induction false} ChunksSnocLong(games: seq<Played>, x: Played, n: nat)
    requires n > 0 && |games| >= n
    ensures Chunks(games + [x], n) ==
      Chunks(games, n) + (if Pos(|games| + 1, n) == 0 then [(games + [x])[|games| + 1 - n..]] else [])
    decreases |games|, 1
  {
    var g := games + [x];
    var rest := games[n..];
    var tail: seq<seq<Played>> := if Pos(|games| + 1, n) == 0 then [g[|games| + 1 - n..]] else [];
    ChunksFirst(g, n);
    ChunksFirst(games, n);
    assert g[..n] == games[..n];
    assert g[n..] == rest + [x];
    ChunksSnocRest(games, x, n);
    AppendAssoc([games[..n]], Chunks(rest, n), tail);
  }

  /** The chunks of a history of at least n matches: its first round, then the chunks of the rest. */
  lemma ChunksFirst(games: seq<Played>, n: nat)
    requires n > 0 && |games| >= n
    ensures Chunks(games, n) == [games[..n]] + Chunks(games[n..], n)
  {
  }

  /** The step of ChunksSnoc on the matches after the first round. */
  lemma {:induction false} ChunksSnocRest(games: seq<Played>, x: Played, n: nat)
    requires n > 0 && |games| >= n
    ensures Chunks(games[n..] + [x], n) ==
      Chunks(games[n..], n) + (if Pos(|games| + 1, n) == 0 then [(games + [x])[|games| + 1 - n..]] else [])
    decreases |games|, 0
  {
    var rest := games[n..];
    ChunksSnoc(rest, x, n);
    PosPeriod(|rest| + 1, n);
    assert |rest| + 1 + n == |games| + 1;
    if |rest| + 1 >= n {
      assert (rest + [x])[|rest| + 1 - n..] == (games + [x])[|games| + 1 - n..];
    } else {
      PosSmall(|rest| + 1, n);
    }
  }

  /** The ids of the matches of each differing round, the first match having id `start`. */
  function LookAt(rounds: seq<seq<Played>>, start: int): seq<seq<int>> {
    if rounds == [] then []
    else
      var init := rounds[..|rounds| - 1];
      var r := rounds[|rounds| - 1];
      var first := start + |Flatten(init)|;
      LookAt(init, start) + (if RoundDiffers(r) then [IdRange(first, first + |r|)] else [])
  }

  /** tuple(range(lo, hi)) */
  function IdRange(lo: int, hi: int): (r: seq<int>)
    ensures |r| == if lo <= hi then hi - lo else 0
    ensures forall k :: 0 <= k < |r| ==> r[k] == lo + k
    decreases hi - lo
  {
    if lo >= hi then [] else [lo] + IdRange(lo + 1, hi)
  }

  /** The matches of the differing rounds, as the diff tables count them. */
  function DiffGames(rounds: seq<seq<Played>>): seq<Played> {
    if rounds == [] then []
    else
      var r := rounds[|rounds| - 1];
      DiffGames(rounds[..|rounds| - 1]) + (if RoundDiffers(r) then r else [])
  }

  /** The ids of the matches played: for each program, the ids of its matches with an issue log (or warnings), in order. */
  function IdsOver(name: String, lists: seq<seq<String>>, flags: seq<seq<bool>>): seq<int> {
    if lists == [] then []
    else
      var n := |lists| - 1;
      IdsOver(name, lists[..n], flags) + SeatIds(n, name, lists[n], if n < |flags| then flags[n] else [])
  }

  /** The player lists, the matches, and the issue and warning flags of a series of matches. */
  function PlayersOf(ss: seq<Seating>): (r: seq<seq<String>>)
    ensures |r| == |ss| && forall k :: 0 <= k < |ss| ==> r[k] == ss[k].players
  {
    seq(|ss|, k requires 0 <= k < |ss| => ss[k].players)
  }

  function GamesOf(fs: seq<Finished>, ss: seq<Seating>): (r: seq<Played>)
    requires |fs| == |ss|
    ensures |r| == |fs| && forall k :: 0 <= k < |fs| ==> r[k] == Played(Reverse(fs[k].lossOrder), ss[k].players)
  {
    seq(|fs|, k requires 0 <= k < |fs| => Played(Reverse(fs[k].lossOrder), ss[k].players))
  }

  function IssueFlagsOf(fs: seq<Finished>): (r: seq<seq<bool>>)
    ensures |r| == |fs| && forall k :: 0 <= k < |fs| ==> r[k] == IssueFlags(fs[k].issueLogs)
  {
    seq(|fs|, k requires 0 <= k < |fs| => IssueFlags(fs[k].issueLogs))
  }

  function WarningFlagsOf(fs: seq<Finished>): (r: seq<seq<bool>>)
    ensures |r| == |fs| && forall k :: 0 <= k < |fs| ==> r[k] == WarningFlags(fs[k].warnings)
  {
    seq(|fs|, k requires 0 <= k < |fs| => WarningFlags(fs[k].warnings))
  }

  /** A seating of arity seats, each a program of the pool. */
  predicate SeatingFits(s: Seating, names: seq<String>, arity: nat) {
    |s.players| == arity && forall j :: 0 <= j < arity ==> s.players[j] in names
  }

  /** Every seating of the schedule has the round's arity and programs of the pool. */
  lemma {:induction false} ScheduleFits(names: seq<String>, draws: seq<RoundDraws>, arity: nat)
    requires |names| > 0
    requires forall r :: 0 <= r < |draws| ==> DrawsFitRound(draws[r], |names|, arity)
    ensures forall k :: 0 <= k < |Schedule(names, draws)| ==> SeatingFits(Schedule(names, draws)[k], names, arity)
  {
    if draws != [] {
      var init := draws[..|draws| - 1];
      assert forall r :: 0 <= r < |init| ==> init[r] == draws[r];
      ScheduleFits(names, init, arity);
      RoundFits(names, draws[|draws| - 1], arity);
      ReverseAt(RoundSeatings(names, draws[|draws| - 1]));
    }
  }

  /** Each entry of the history pairs the results and the player list of one match. */
  lemma {:induction false} HistoryIndex(rs: seq<seq<nat>>, ls: seq<seq<String>>)
    requires |rs| == |ls|
    ensures forall k :: 0 <= k < |rs| ==> History(rs, ls)[k] == Played(rs[k], ls[k])
  {
    if rs != [] {
      var n := |rs| - 1;
      HistoryIndex(rs[..n], ls[..n]);
    }
  }

  /** The history of a suffix of the matches is that suffix of the history. */
  lemma HistorySuffix(rs: seq<seq<nat>>, ls: seq<seq<String>>, a: nat)
    requires |rs| == |ls| && a <= |rs|
    ensures History(rs[a..], ls[a..]) == History(rs, ls)[a..]
  {
    HistoryIndex(rs, ls);
    HistoryIndex(rs[a..], ls[a..]);
    var h := History(rs, ls);
    forall k | 0 <= k < |rs| - a
      ensures History(rs[a..], ls[a..])[k] == h[a..][k]
    {
      assert h[a..][k] == h[a + k];
    }
  }

  /** The matches from index a on, as a sequence of their own, fit the tables. */
  lemma SuffixFits(h: seq<Played>, names: seq<String>, a: nat)
    requires AllFit(h, names) && a <= |h|
    ensures AllFit(h[a..], names)
  {
    forall k | 0 <= k < |h| - a
      ensures Fits(h[a..][k], names)
    {
      assert h[a..][k] == h[a + k];
    }
  }

  /** The schedule of the first rounds is a prefix of the whole schedule. */
  lemma {:induction false} SchedulePrefix(names: seq<String>, draws: seq<RoundDraws>, r: nat)
    requires |names| > 0 && r <= |draws|
    ensures |Schedule(names, draws[..r])| <= |Schedule(names, draws)|
    ensures Schedule(names, draws[..r]) == Schedule(names, draws)[..|Schedule(names, draws[..r])|]
  {
    if r == |draws| {
      assert draws[..r] == draws;
    } else {
      var init := draws[..|draws| - 1];
      assert init[..r] == draws[..r];
      SchedulePrefix(names, init, r);
    }
  }

  /** Drawing one more round appends its seatings, last first. */
  lemma ScheduleSnoc(names: seq<String>, draws: seq<RoundDraws>, r: nat)
    requires |names| > 0 && r < |draws| && HasAccepted(draws[r].orders)
    ensures Schedule(names, draws[..r + 1]) == Schedule(names, draws[..r]) + Reverse(RoundSeatings(names, draws[r]))
  {
    assert draws[..r + 1][..r] == draws[..r];
  }

  /** Seating j of round r, counted from the round's end, follows the seatings of the rounds before it in the schedule. */
  lemma {:induction false} ScheduleAt(names: seq<String>, draws: seq<RoundDraws>, r: nat, j: nat)
    requires |names| > 0 && r < |draws| && j < |names| && HasAccepted(draws[r].orders)
    ensures |Schedule(names, draws[..r + 1])| == |Schedule(names, draws[..r])| + |names|
    ensures |Schedule(names, draws[..r])| + j < |Schedule(names, draws)|
    ensures Schedule(names, draws)[|Schedule(names, draws[..r])| + j] == RoundSeatings(names, draws[r])[|names| - 1 - j]
  {
    var init := Schedule(names, draws[..r]);
    var last := Reverse(RoundSeatings(names, draws[r]));
    ScheduleSnoc(names, draws, r);
    SchedulePrefix(names, draws, r + 1);
    ReverseAt(RoundSeatings(names, draws[r]));
    assert (init + last)[|init| + j] == last[j];
  }

  /** Once every round is drawn, the seatings drawn are the whole schedule. */
  lemma AllRoundsDrawn(names: seq<String>, draws: seq<RoundDraws>)
    requires |names| > 0
    ensures Schedule(names, draws[..|draws|]) == Schedule(names, draws)
  {
    assert draws[..|draws|] == draws;
  }

  /**
   * The seatings left in random_configs after match i: those of sched from
   * match i up to the end of the rounds drawn, which is match end, the next
   * one last; rounds have n matches.
   */
  ghost predicate Pending(sched: seq<Seating>, configs: seq<Seating>, i: nat, n: nat, end: nat)
    requires n > 0
  {
    && |configs| <= n && i + |configs| == end && end <= |sched|
    && Pos(i, n) == (if configs == [] then 0 else n - |configs|)
    && PopsFrom(sched, configs, i)
  }

  /** Popping configs from its end yields sched[i], sched[i + 1], ... in turn. */
  ghost predicate PopsFrom(sched: seq<Seating>, configs: seq<Seating>, i: nat)
    decreases |configs|
  {
    configs == [] || (i < |sched| && configs[|configs| - 1] == sched[i] && PopsFrom(sched, configs[..|configs| - 1], i + 1))
  }

  /** A list whose k-th element is the k-th seating before end pops in schedule order. */
  lemma {:induction false} PopsFromReversed(sched: seq<Seating>, configs: seq<Seating>, i: nat)
    requires i + |configs| <= |sched|
    requires forall k :: 0 <= k < |configs| ==> configs[k] == sched[i + |configs| - 1 - k]
    ensures PopsFrom(sched, configs, i)
  {
    if configs != [] {
      var rest := configs[..|configs| - 1];
      assert forall k :: 0 <= k < |rest| ==> rest[k] == configs[k];
      PopsFromReversed(sched, rest, i + 1);
    }
  }

  /** generate_random_configurations refills random_configs with the seatings of round r. */
  lemma {:induction false} PendingRefill(names: seq<String>, draws: seq<RoundDraws>, i: nat, r: nat)
    requires |names| > 0 && r < |draws| && HasAccepted(draws[r].orders)
    requires Pending(Schedule(names, draws), [], i, |names|, |Schedule(names, draws[..r])|)
    ensures Pending(Schedule(names, draws), RoundSeatings(names, draws[r]), i, |names|, |Schedule(names, draws[..r + 1])|)
  {
    var n := |names|;
    var sched := Schedule(names, draws);
    var rs := RoundSeatings(names, draws[r]);
    ScheduleAt(names, draws, r, n - 1);
    forall k | 0 <= k < n
      ensures rs[k] == sched[i + n - 1 - k]
    {
      ScheduleAt(names, draws, r, n - 1 - k);
    }
    PopsFromReversed(sched, rs, i);
  }

  /** random_configs.pop() yields the seating of match i, and the round ends when none is left. */
  lemma {:induction false} PendingPop(sched: seq<Seating>, configs: seq<Seating>, i: nat, n: nat, end: nat)
    requires n > 0 && configs != [] && Pending(sched, configs, i, n, end)
    ensures i < |sched| && configs[|configs| - 1] == sched[i]
    ensures Pending(sched, configs[..|configs| - 1], i + 1, n, end)
    ensures configs[..|configs| - 1] == [] <==> i + 1 >= n && Pos(i + 1, n) == 0
  {
    PosAtMost(i, n);
  }

  /** The seatings of one round fit the pool and the arity. */
  lemma RoundFits(names: seq<String>, d: RoundDraws, arity: nat)
    requires |names| > 0 && DrawsFitRound(d, |names|, arity)
    ensures forall i :: 0 <= i < |names| ==> SeatingFits(RoundSeatings(names, d)[i], names, arity)
  {
    var order := d.orders[FirstAccepted(d.orders)];
    SeatingsAt(names, order, FormatConfig(Config(d.mapDraw, d.seedDraw)), |names|);
    forall i | 0 <= i < |names|
      ensures SeatingFits(Seating(Rotation(names, order, i), FormatConfig(Config(d.mapDraw, d.seedDraw))), names, arity)
    {
      RotationAt(names, order, i);
    }
  }

  /**
   * What play_all_games changes, as values: the recorded matches, the
   * matches counted in the diff tables, games_to_look_at, the error and
   * warning lists of every program, and games_played. The tables are not
   * part of it: they always count the matches of the two histories.
   */
  datatype Snapshot = Snapshot(
    history: seq<Played>,
    diffHistory: seq<Played>,
    lookAt: seq<seq<int>>,
    errors: map<String, seq<int>>,
    warnings: map<String, seq<int>>,
    played: int)

  /**
   * The state after the first i matches of play_all_games, match k being
   * seated as ss[k] and ending as fs[k]; a round of n matches ends after
   * every n-th match.
   */
  function Expected(s0: Snapshot, ss: seq<Seating>, fs: seq<Finished>, n: nat, i: nat): (s: Snapshot)
    requires n > 0 && i <= |ss| && i <= |fs|
    ensures |s.history| == |s0.history| + i && |s0.diffHistory| <= |s.diffHistory|
  {
    if i == 0 then s0
    else
      var id := i - 1;
      Advance(Expected(s0, ss, fs, n, id), id, ss[id].players, fs[id], n, i >= n && Pos(i, n) == 0)
  }

  /**
   * One turn of the loop of play_all_games: play_game records the match and
   * notes the match id for its flagged seats, games_played goes up, and when
   * the match ends a round of n matches whose results are not all the same,
   * the ids of that round go to games_to_look_at and its matches are counted
   * again in the diff tables.
   */
  function Advance(s: Snapshot, id: int, players: seq<String>, m: Finished, n: nat, ends: bool): (r: Snapshot)
    requires ends ==> n <= |s.history| + 1
  {
    var a := AfterGame(s, id, players, m).(played := s.played + 1);
    if ends then AfterRound(a, id, n) else a
  }

  /** The two steps of Advance: the match, then the close of the round when it ends one. */
  lemma AdvanceSteps(s: Snapshot, id: int, players: seq<String>, m: Finished, n: nat, ends: bool)
    requires ends ==> n <= |s.history| + 1
    ensures var a := AfterGame(s, id, players, m).(played := s.played + 1);
      Advance(s, id, players, m, n, ends) == if ends then AfterRound(a, id, n) else a
  {
  }

  /** Match i of the schedule, seated as ss[i], takes the state after i matches to the state after i + 1. */
  lemma ExpectedNext(s0: Snapshot, ss: seq<Seating>, fs: seq<Finished>, n: nat, i: nat, ends: bool)
    requires n > 0 && i < |ss| && i < |fs|
    requires ends == (i + 1 >= n && Pos(i + 1, n) == 0)
    ensures ends ==> n <= |Expected(s0, ss, fs, n, i).history| + 1
    ensures Expected(s0, ss, fs, n, i + 1) == Advance(Expected(s0, ss, fs, n, i), i, ss[i].players, fs[i], n, ends)
  {
  }

  /** play_game: the match is recorded and counted, and its id is noted for the seats with an issue log or warnings. */
  function AfterGame(s: Snapshot, id: int, players: seq<String>, m: Finished): Snapshot {
    var g := Played(Reverse(m.lossOrder), players);
    s.(history := s.history + [g],
       errors := AddIds(s.errors, id, players, IssueFlags(m.issueLogs)),
       warnings := AddIds(s.warnings, id, players, WarningFlags(m.warnings)))
  }

  /**
   * The end of a round after match id: when the last n results are not all
   * the same, the round's ids are noted and its matches are counted again
   * in the diff tables.
   */
  function AfterRound(s: Snapshot, id: int, n: nat): Snapshot
    requires n <= |s.history|
  {
    var round := s.history[|s.history| - n..];
    if RoundDiffers(round) then
      s.(diffHistory := s.diffHistory + round,
         lookAt := s.lookAt + [IdRange(id - n + 1, id + 1)])
    else s
  }

  function IdsTable(m: map<String, seq<int>>, lists: seq<seq<String>>, flags: seq<seq<bool>>): map<String, seq<int>> {
    map n | n in m :: m[n] + IdsOver(n, lists, flags)
  }

  lemma GamesSnoc(fs: seq<Finished>, ss: seq<Seating>, i: nat)
    requires i < |fs| && i < |ss|
    ensures GamesOf(fs[..i + 1], ss[..i + 1]) == GamesOf(fs[..i], ss[..i]) + [Played(Reverse(fs[i].lossOrder), ss[i].players)]
    ensures PlayersOf(ss[..i + 1]) == PlayersOf(ss[..i]) + [ss[i].players]
  {
  }

  /** The main history and games_played after i matches. */
  lemma {:induction false} ExpectedHistory(s0: Snapshot, ss: seq<Seating>, fs: seq<Finished>, n: nat, i: nat)
    requires n > 0 && i <= |ss| && i <= |fs|
    ensures Expected(s0, ss, fs, n, i).history == s0.history + GamesOf(fs[..i], ss[..i])
    ensures Expected(s0, ss, fs, n, i).played == s0.played + i
  {
    if i > 0 {
      ExpectedHistory(s0, ss, fs, n, i - 1);
      GamesSnoc(fs, ss, i - 1);
      AppendAssoc(s0.history, GamesOf(fs[..i - 1], ss[..i - 1]), [Played(Reverse(fs[i - 1].lossOrder), ss[i - 1].players)]);
    }
  }

  /** Noting one more match in every list is the table over one more match. */
  lemma IdsTableSnoc(m: map<String, seq<int>>, lists: seq<seq<String>>, l: seq<String>, flags: seq<seq<bool>>)
    requires |lists| < |flags|
    ensures AddIds(IdsTable(m, lists, flags), |lists|, l, flags[|lists|]) == IdsTable(m, lists + [l], flags)
  {
    assert (lists + [l])[..|lists|] == lists;
    forall n | n in m
      ensures m[n] + IdsOver(n, lists, flags) + SeatIds(|lists|, n, l, flags[|lists|]) == m[n] + IdsOver(n, lists + [l], flags)
    {
      AppendAssoc(m[n], IdsOver(n, lists, flags), SeatIds(|lists|, n, l, flags[|lists|]));
    }
  }

  /** The error and warning lists after i matches. */
  lemma {:induction false} ExpectedIds(s0: Snapshot, ss: seq<Seating>, fs: seq<Finished>, n: nat, i: nat)
    requires n > 0 && i <= |ss| && i <= |fs|
    ensures Expected(s0, ss, fs, n, i).errors == IdsTable(s0.errors, PlayersOf(ss[..i]), IssueFlagsOf(fs))
    ensures Expected(s0, ss, fs, n, i).warnings == IdsTable(s0.warnings, PlayersOf(ss[..i]), WarningFlagsOf(fs))
  {
    if i == 0 {
      assert forall n :: n in s0.errors ==> s0.errors[n] + [] == s0.errors[n];
      assert forall n :: n in s0.warnings ==> s0.warnings[n] + [] == s0.warnings[n];
    } else {
      ExpectedIds(s0, ss, fs, n, i - 1);
      GamesSnoc(fs, ss, i - 1);
      IdsTableSnoc(s0.errors, PlayersOf(ss[..i - 1]), ss[i - 1].players, IssueFlagsOf(fs));
      IdsTableSnoc(s0.warnings, PlayersOf(ss[..i - 1]), ss[i - 1].players, WarningFlagsOf(fs));
    }
  }

  /** Closing a round of the history: the ids and the matches it adds, if it differs. */
  lemma RoundsSnoc(rounds: seq<seq<Played>>, r: seq<Played>)
    ensures LookAt(rounds + [r], 0) == LookAt(rounds, 0) + (if RoundDiffers(r) then [IdRange(|Flatten(rounds)|, |Flatten(rounds)| + |r|)] else [])
    ensures DiffGames(rounds + [r]) == DiffGames(rounds) + (if RoundDiffers(r) then r else [])
  {
    assert (rounds + [r])[..|rounds|] == rounds;
  }

  /** games_to_look_at and the diff tables after i matches: the differing whole rounds so far. */
  lemma {:induction false} ExpectedRounds(s0: Snapshot, ss: seq<Seating>, fs: seq<Finished>, n: nat, i: nat)
    requires n > 0 && i <= |ss| && i <= |fs|
    ensures Expected(s0, ss, fs, n, i).lookAt == s0.lookAt + LookAt(Chunks(GamesOf(fs[..i], ss[..i]), n), 0)
    ensures Expected(s0, ss, fs, n, i).diffHistory == s0.diffHistory + DiffGames(Chunks(GamesOf(fs[..i], ss[..i]), n))
  {
    if i > 0 {
      var id := i - 1;
      ExpectedRounds(s0, ss, fs, n, id);
      ExpectedHistory(s0, ss, fs, n, id);
      GamesSnoc(fs, ss, id);
      AdvanceRounds(s0, Expected(s0, ss, fs, n, id), GamesOf(fs[..id], ss[..id]), ss[id].players, fs[id], n);
    }
  }

  /** One more match, closing a round after every n-th: the rounds of the history grow by the round it closes. */
  lemma AdvanceRounds(s0: Snapshot, prev: Snapshot, g: seq<Played>, players: seq<String>, m: Finished, n: nat)
    requires n > 0
    requires prev.history == s0.history + g
    requires prev.lookAt == s0.lookAt + LookAt(Chunks(g, n), 0)
    requires prev.diffHistory == s0.diffHistory + DiffGames(Chunks(g, n))
    ensures var x := Played(Reverse(m.lossOrder), players);
      var r := Advance(prev, |g|, players, m, n, |g| + 1 >= n && Pos(|g| + 1, n) == 0);
      && r.lookAt == s0.lookAt + LookAt(Chunks(g + [x], n), 0)
      && r.diffHistory == s0.diffHistory + DiffGames(Chunks(g + [x], n))
  {
    hide Advance, AfterGame;
    var x := Played(Reverse(m.lossOrder), players);
    var ends := |g| + 1 >= n && Pos(|g| + 1, n) == 0;
    var a := AfterGame(prev, |g|, players, m).(played := prev.played + 1);
    AdvanceSteps(prev, |g|, players, m, n, ends);
    AfterGameKeeps(prev, |g|, players, m);
    ChunksSnoc(g, x, n);
    if ends {
      assert a.history == s0.history + g + [x];
      RoundClosed(s0, a, g, x, n);
    } else {
      assert Chunks(g + [x], n) == Chunks(g, n);
    }
  }

  /** play_game records the match and leaves the rounds alone. */
  lemma AfterGameKeeps(s: Snapshot, id: int, players: seq<String>, m: Finished)
    ensures var a := AfterGame(s, id, players, m);
      && a.history == s.history + [Played(Reverse(m.lossOrder), players)]
      && a.lookAt == s.lookAt && a.diffHistory == s.diffHistory && a.played == s.played
  {
  }

  /** Closing a round after match |g| + 1, g + [x] after s0: the round is the last n matches of the history. */
  lemma RoundClosed(s0: Snapshot, a: Snapshot, g: seq<Played>, x: Played, n: nat)
    requires n > 0 && |g| + 1 >= n && Pos(|g| + 1, n) == 0
    requires a.history == s0.history + g + [x]
    requires a.lookAt == s0.lookAt + LookAt(Chunks(g, n), 0)
    requires a.diffHistory == s0.diffHistory + DiffGames(Chunks(g, n))
    ensures AfterRound(a, |g|, n).lookAt == s0.lookAt + LookAt(Chunks(g, n) + [(g + [x])[|g| + 1 - n..]], 0)
    ensures AfterRound(a, |g|, n).diffHistory == s0.diffHistory + DiffGames(Chunks(g, n) + [(g + [x])[|g| + 1 - n..]])
  {
    hide *;
    var id := |g|;
    var r := (g + [x])[id + 1 - n..];
    LastMatchesOf(s0.history, g, x, n);
    assert a.history[|a.history| - n..] == r;
    var moreIds := if RoundDiffers(r) then [IdRange(id - n + 1, id + 1)] else [];
    var moreGames := if RoundDiffers(r) then r else [];
    AfterRoundOf(a, id, n, r);
    RoundStart(g, n);
    RoundsSnoc(Chunks(g, n), r);
    assert |Flatten(Chunks(g, n))| == id - n + 1 && |r| == n;
    assert LookAt(Chunks(g, n) + [r], 0) == LookAt(Chunks(g, n), 0) + moreIds;
    AppendAssoc(s0.lookAt, LookAt(Chunks(g, n), 0), moreIds);
    AppendAssoc(s0.diffHistory, DiffGames(Chunks(g, n)), moreGames);
  }

  /** AfterRound, given the last n matches r of the history. */
  lemma AfterRoundOf(a: Snapshot, id: int, n: nat, r: seq<Played>)
    requires n <= |a.history| && a.history[|a.history| - n..] == r
    ensures AfterRound(a, id, n).lookAt == a.lookAt + if RoundDiffers(r) then [IdRange(id - n + 1, id + 1)] else []
    ensures AfterRound(a, id, n).diffHistory == a.diffHistory + if RoundDiffers(r) then r else []
  {
  }

  /** The last n matches of h0 + g + [x] are those of g + [x]. */
  lemma LastMatchesOf(h0: seq<Played>, g: seq<Played>, x: Played, n: nat)
    requires n <= |g| + 1
    ensures (h0 + g + [x])[|h0 + g + [x]| - n..] == (g + [x])[|g| + 1 - n..]
  {
    AppendAssoc(h0, g, [x]);
    DropConcatFrom(h0, g + [x], |g| + 1 - n);
  }

  /** When match |g| + 1 closes a round, the whole rounds before it hold the first |g| + 1 - n matches. */
  lemma RoundStart(g: seq<Played>, n: nat)
    requires n > 0 && |g| + 1 >= n && Pos(|g| + 1, n) == 0
    ensures |Flatten(Chunks(g, n))| == |g| + 1 - n
  {
    FlattenChunksLength(g, n);
    assert Pos(|g|, n) == n - 1;
  }

  lemma TallyFromSnocOne(t: Tally, games: seq<Played>, g: Played)
    ensures TallyFrom(t, games + [g]) == Step(TallyFrom(t, games), g)
  {
    assert (games + [g])[..|games|] == games;
  }

  /**
   * The state after all the matches fs, match k seated as ss[k]: every
   * match is recorded, counted and noted in the error and warning lists,
   * and every whole round of n matches whose results differ is noted and
   * counted again in the diff tables.
   */
  lemma ExpectedAll(s0: Snapshot, ss: seq<Seating>, fs: seq<Finished>, n: nat)
    requires n > 0 && |fs| <= |ss|
    ensures var s := Expected(s0, ss, fs, n, |fs|);
      var games := GamesOf(fs, ss[..|fs|]);
      && s.history == s0.history + games
      && s.played == s0.played + |fs|
      && s.lookAt == s0.lookAt + LookAt(Chunks(games, n), 0)
      && s.diffHistory == s0.diffHistory + DiffGames(Chunks(games, n))
      && s.errors == IdsTable(s0.errors, PlayersOf(ss[..|fs|]), IssueFlagsOf(fs))
      && s.warnings == IdsTable(s0.warnings, PlayersOf(ss[..|fs|]), WarningFlagsOf(fs))
  {
    var i := |fs|;
    assert fs[..i] == fs;
    ExpectedHistory(s0, ss, fs, n, i);
    ExpectedIds(s0, ss, fs, n, i);
    ExpectedRounds(s0, ss, fs, n, i);
  }

  /** Tables that count matches which fit have the keys they were created with. */
  lemma TallyOfKeys(names: seq<String>, games: seq<Played>)
    requires AllFit(games, names)
    ensures HasKeys(TallyOf(names, games), names)
  {
    TallyOfCounts(names, games);
  }

  /** The recorded results and player lists pair up into matches that fit, and the tables count them. */
  ghost predicate Recorded(names: seq<String>, rs: seq<seq<nat>>, ls: seq<seq<String>>, t: Tally) {
    |rs| == |ls| && AllFit(History(rs, ls), names) && t == TallyOf(names, History(rs, ls))
  }

  /** The diff matches fit, the diff tables count them, and the diff results are theirs. */
  ghost predicate DiffRecorded(names: seq<String>, dh: seq<Played>, dr: seq<seq<nat>>, t: Tally) {
    AllFit(dh, names) && t == TallyOf(names, dh) && dr == ResultsOf(dh)
  }

  /** Recording a finished match, and counting it once more, keeps the tables counting the recorded matches. */
  lemma RecordOne(names: seq<String>, rs: seq<seq<nat>>, ls: seq<seq<String>>, t: Tally, m: Finished, l: seq<String>)
    requires Recorded(names, rs, ls, t)
    requires |l| in Arities && FinishedFits(m, |l|) && forall j :: 0 <= j < |l| ==> l[j] in names
    ensures Fits(Played(Reverse(m.lossOrder), l), names) && HasKeys(t, names)
    ensures Recorded(names, rs + [Reverse(m.lossOrder)], ls + [l], Step(t, Played(Reverse(m.lossOrder), l)))
  {
    var h := History(rs, ls);
    var g := Played(Reverse(m.lossOrder), l);
    FinishedResultsFit(m, l, names);
    TallyOfKeys(names, h);
    HistorySnoc(rs, ls, g.results, l);
    AllFitSnoc(h, g, names);
    TallyFromSnocOne(EmptyTally(names), h, g);
  }

  /** The last n recorded matches fit the tables. */
  lemma RecordedWindow(names: seq<String>, rs: seq<seq<nat>>, ls: seq<seq<String>>, t: Tally, n: nat)
    requires Recorded(names, rs, ls, t) && n <= |rs|
    ensures |rs| == |ls| && AllFit(History(rs, ls)[|rs| - n..], names)
  {
    SuffixFits(History(rs, ls), names, |rs| - n);
  }

  /** Counting the matches of a round in the diff tables, and keeping their results, keeps the diff tables counting the diff matches. */
  lemma RecordRound(names: seq<String>, dh: seq<Played>, dr: seq<seq<nat>>, t: Tally, w: seq<Played>)
    requires DiffRecorded(names, dh, dr, t) && AllFit(w, names)
    ensures HasKeys(t, names)
    ensures DiffRecorded(names, dh + w, dr + ResultsOf(w), TallyFrom(t, w))
  {
    TallyOfKeys(names, dh);
    TallyFromConcat(EmptyTally(names), dh, w);
    AllFitConcat(dh, w, names);
    ResultsOfConcat(dh, w);
  }

  /**
   * The bookkeeping of play_game on values: count match m, played by l, in
   * the tables t, and note its id in the error and warning lists.
   */
  method CountGame(t: Tally, errors: map<String, seq<int>>, warnings: map<String, seq<int>>, id: int, m: Finished, l: seq<String>,
                   ghost names: seq<String>, ghost rs: seq<seq<nat>>, ghost ls: seq<seq<String>>)
    returns (t': Tally, errors': map<String, seq<int>>, warnings': map<String, seq<int>>)
    requires Recorded(names, rs, ls, t)
    requires |l| in Arities && FinishedFits(m, |l|) && forall j :: 0 <= j < |l| ==> l[j] in names
    requires errors.Keys == NameSet(names) && warnings.Keys == NameSet(names)
    ensures t' == Step(t, Played(Reverse(m.lossOrder), l))
    ensures Recorded(names, rs + [Reverse(m.lossOrder)], ls + [l], t')
    ensures History(rs + [Reverse(m.lossOrder)], ls + [l]) == History(rs, ls) + [Played(Reverse(m.lossOrder), l)]
    ensures errors' == AddIds(errors, id, l, IssueFlags(m.issueLogs)) && errors'.Keys == errors.Keys
    ensures warnings' == AddIds(warnings, id, l, WarningFlags(m.warnings)) && warnings'.Keys == warnings.Keys
  {
    RecordOne(names, rs, ls, t, m, l);
    t' := AddToTally(t, Played(Reverse(m.lossOrder), l), names);
    errors' := AppendIds(errors, id, l, IssueFlags(m.issueLogs));
    warnings' := AppendIds(warnings, id, l, WarningFlags(m.warnings));
  }

  /**
   * The loop over the matches of a closed round in play_all_games: each
   * one's results are kept in diff_results and it is counted in the diff
   * tables.
   */
  method CountRound(t: Tally, dr: seq<seq<nat>>, games: seq<Played>, ghost names: seq<String>, ghost dh: seq<Played>)
    returns (t': Tally, dr': seq<seq<nat>>)
    requires DiffRecorded(names, dh, dr, t) && AllFit(games, names)
    ensures t' == TallyFrom(t, games) && dr' == dr + ResultsOf(games)
    ensures DiffRecorded(names, dh + games, dr', t')
  {
    RecordRound(names, dh, dr, t, games);
    t', dr' := t, dr;
    var k := 0;
    while k < |games|
      invariant 0 <= k <= |games| && t' == TallyFrom(t, games[..k]) && HasKeys(t', names)
      invariant dr' == dr + ResultsOf(games[..k])
    {
      TallyFromSnoc(t, games, k);
      StepKeys(t', games[k], names);
      ResultsOfPrefix(dr, games, k);
      dr' := dr' + [games[k].results];
      t' := AddToTally(t', games[k], names);
      k := k + 1;
    }
    assert games[..k] == games;
  }

  /**
   * The end of a round in play_all_games on values, after match i of the
   * recorded results rs and player lists ls: when the last n matches differ,
   * count them in the diff tables t, keep their results in dr and note their
   * ids in la.
   */
  method CloseRound(rs: seq<seq<nat>>, ls: seq<seq<String>>, t: Tally, dr: seq<seq<nat>>, la: seq<seq<int>>, i: int, n: nat,
                    ghost names: seq<String>, ghost tally: Tally, ghost dh: seq<Played>,
                    ghost e: map<String, seq<int>>, ghost w: map<String, seq<int>>, ghost p: int)
    returns (t': Tally, dr': seq<seq<nat>>, la': seq<seq<int>>, ghost dh': seq<Played>)
    requires Recorded(names, rs, ls, tally) && DiffRecorded(names, dh, dr, t) && n <= |rs|
    ensures var round := History(rs, ls)[|rs| - n..];
      && la' == la + (if RoundDiffers(round) then [IdRange(i - n + 1, i + 1)] else [])
      && t' == (if RoundDiffers(round) then TallyFrom(t, round) else t)
      && dr' == dr + (if RoundDiffers(round) then ResultsOf(round) else [])
    ensures DiffRecorded(names, dh', dr', t')
    ensures Snapshot(History(rs, ls), dh', la', e, w, p) == AfterRound(Snapshot(History(rs, ls), dh, la, e, w, p), i, n)
  {
    hide Recorded, DiffRecorded;
    RecordedWindow(names, rs, ls, tally, n);
    HistorySuffix(rs, ls, |rs| - n);
    var window := History(rs[|rs| - n..], ls[|ls| - n..]);
    AfterRoundOf(Snapshot(History(rs, ls), dh, la, e, w, p), i, n, window);
    t', dr', la', dh' := t, dr, la, dh;
    if RoundDiffers(window) {
      t', dr' := CountRound(t, dr, window, names, dh);
      la' := la + [IdRange(i - n + 1, i + 1)];
      dh' := dh + window;
    }
  }

  ghost predicate Consistent(names: seq<String>, numBots: nat, nameKeys: set<String>, rs: seq<seq<nat>>, ls: seq<seq<String>>, t: Tally,
                             dr: seq<seq<nat>>, dt: Tally, dh: seq<Played>, e: map<String, seq<int>>, w: map<String, seq<int>>) {
    && numBots == |names| && nameKeys == NameSet(names)
    && Recorded(names, rs, ls, t)
    && DiffRecorded(names, dh, dr, dt)
    && e.Keys == nameKeys && w.Keys == nameKeys
  }

  /** Tournament: the schedule and the statistics of a series of matches. */
  class Tournament {
    const numberOfGames: nat
    const programNames: seq<String>
    const numBots: nat
    /** 0 when no arity was given. */
    const gameArity: nat
    /** The keys the error and warning lists are created with. */
    ghost const nameKeys: set<String>
    var results: seq<seq<nat>>
    var playerLists: seq<seq<String>>
    /** wins, placements and totals_by_arity */
    var tally: Tally
    var diffResults: seq<seq<nat>>
    /** diff_wins, diff_placements and diff_totals_by_arity */
    var diffTally: Tally
    /** The matches the diff tables count, with their player lists; only their results are kept in diffResults. */
    ghost var diffHistory: seq<Played>
    var gamesWithErrors: map<String, seq<int>>
    var gamesWithWarnings: map<String, seq<int>>
    var gamesPlayed: nat
    var gamesToLookAt: seq<seq<int>>

    /** The constants fixed by __init__. */
    ghost predicate KeySets() {
      numBots == |programNames| && nameKeys == NameSet(programNames)
    }

    /**
     * Every recorded match fits the tables, the tables count the recorded
     * matches and the diff tables the diff matches, diff_results holds the
     * results of the diff matches, and the error and warning lists have a
     * key per program.
     */
    ghost predicate Valid()
      reads this`results, this`playerLists, this`tally, this`diffResults, this`diffTally, this`diffHistory
      reads this`gamesWithErrors, this`gamesWithWarnings
    {
      // Bound to a name so that callers get one proof obligation, not one per conjunct.
      var holds := Consistent(programNames, numBots, nameKeys, results, playerLists, tally, diffResults, diffTally, diffHistory, gamesWithErrors, gamesWithWarnings);
      holds
    }

    /** Tournament.__init__ */
    constructor (games: nat, names: seq<String>, arity: nat)
      ensures Valid()
      ensures numberOfGames == games && programNames == names && numBots == |names| && gameArity == arity
      ensures results == [] && playerLists == [] && diffResults == [] && diffHistory == []
      ensures tally == EmptyTally(names) && diffTally == EmptyTally(names)
      ensures gamesToLookAt == [] && gamesPlayed == 0
      ensures forall n :: n in names ==> n in gamesWithErrors && gamesWithErrors[n] == [] && n in gamesWithWarnings && gamesWithWarnings[n] == []
    {
      numberOfGames := games;
      programNames := names;
      numBots := |names|;
      gameArity := arity;
      nameKeys := NameSet(names);
      results := [];
      playerLists := [];
      tally := EmptyTally(names);
      diffResults := [];
      diffTally := EmptyTally(names);
      diffHistory := [];
      gamesWithErrors := map n | n in NameSet(names) :: [];
      gamesWithWarnings := map n | n in NameSet(names) :: [];
      gamesPlayed := 0;
      gamesToLookAt := [];
    }

    /**
     * The state of play_all_games before match i: rounds draws[..round] have
     * been drawn, configs holds what is left of the last one, and the first
     * i matches have been played as Expected says.
     */
    ghost predicate Progress(i: nat, configs: seq<Seating>, round: nat, draws: seq<RoundDraws>, finished: seq<Finished>,
                             end: nat, s0: Snapshot)
      reads this
    {
      // Bound to a name so that callers get one proof obligation, not one per conjunct.
      var holds :=
        && numBots == |programNames| && numBots > 0 && |results| == |playerLists|
        && round <= |draws| && end == |Schedule(programNames, draws[..round])|
        && Pending(Schedule(programNames, draws), configs, i, numBots, end)
        && i <= |finished| && i <= |Schedule(programNames, draws)|
        && Snap() == Expected(s0, Schedule(programNames, draws), finished, numBots, i);
      holds
    }

    /** The number of seats: game_arity when given, else 2. */
    function Arity(): (k: nat)
      ensures gameArity != 0 ==> k == gameArity
      ensures gameArity == 0 ==> k == 2
    {
      if gameArity != 0 then gameArity else 2
    }

    /** The part of the state that play_all_games changes, as a value. */
    ghost function Snap(): Snapshot
      reads this`results, this`playerLists, this`diffHistory, this`gamesToLookAt
      reads this`gamesWithErrors, this`gamesWithWarnings, this`gamesPlayed
      requires |results| == |playerLists|
    {
      Snapshot(History(results, playerLists), diffHistory, gamesToLookAt, gamesWithErrors, gamesWithWarnings, gamesPlayed)
    }

    /**
     * generate_random_configurations: draw seat orders until one is not all
     * the same bot, then return its num_bots rotations with one shared
     * configuration string.
     */
    method GenerateRandomConfigurations(d: RoundDraws) returns (configs: seq<Seating>)
      requires numBots == |programNames| && numBots > 0
      requires DrawsFitRound(d, numBots, Arity())
      ensures configs == RoundSeatings(programNames, d)
    {
      var order := DrawOrder(d.orders);
      var config := FormatConfig(Config(d.mapDraw, d.seedDraw));
      configs := Rotations(programNames, order, config);
    }

    /**
     * The start of a turn of play_all_games, for match i: when random_configs
     * is empty, refill it with the next round (round, drawn from draws[round]),
     * then pop the seating of the match.
     */
    method NextSeating(configs: seq<Seating>, round: nat, draws: seq<RoundDraws>, i: nat, ghost end: nat)
      returns (seating: Seating, rest: seq<Seating>, round': nat, ghost end': nat)
      requires numBots == |programNames| && numBots > 0
      requires forall r :: 0 <= r < |draws| ==> DrawsFitRound(draws[r], numBots, Arity())
      requires round <= |draws| && end == |Schedule(programNames, draws[..round])|
      requires Pending(Schedule(programNames, draws), configs, i, numBots, end) && i < |Schedule(programNames, draws)|
      ensures round' <= |draws| && end' == |Schedule(programNames, draws[..round'])|
      ensures seating == Schedule(programNames, draws)[i] && Pending(Schedule(programNames, draws), rest, i + 1, numBots, end')
      ensures rest == [] <==> i + 1 >= numBots && Pos(i + 1, numBots) == 0
    {
      var pending := configs;
      round', end' := round, end;
      if pending == [] {
        if round == |draws| {
          AllRoundsDrawn(programNames, draws);
        }
        pending := GenerateRandomConfigurations(draws[round]);
        PendingRefill(programNames, draws, i, round);
        round' := round + 1;
        end' := |Schedule(programNames, draws[..round'])|;
      }
      PendingPop(Schedule(programNames, draws), pending, i, numBots, end');
      seating := pending[|pending| - 1];
      rest := pending[..|pending| - 1];
    }

    /**
     * The bookkeeping of play_game once the match is over: record the results
     * (the loss order reversed) and the player list, count the match in the
     * tables, and note the match id for the seats with an issue log or warnings.
     */
    method PlayGame(id: int, playerList: seq<String>, config: String, m: Finished)
      requires Valid()
      requires |playerList| in Arities && FinishedFits(m, |playerList|)
      requires forall j :: 0 <= j < |playerList| ==> playerList[j] in programNames
      modifies this`results, this`playerLists, this`tally, this`gamesWithErrors, this`gamesWithWarnings
      ensures Valid()
      ensures results == old(results) + [Reverse(m.lossOrder)] && playerLists == old(playerLists) + [playerList]
      ensures tally == Step(old(tally), Played(Reverse(m.lossOrder), playerList))
      ensures Snap() == AfterGame(old(Snap()), id, playerList, m)
    {
      hide Recorded, DiffRecorded;
      var res := Reverse(m.lossOrder);
      var t, errs, warns := CountGame(tally, gamesWithErrors, gamesWithWarnings, id, m, playerList, programNames, results, playerLists);
      results, playerLists, tally, gamesWithErrors, gamesWithWarnings := results + [res], playerLists + [playerList], t, errs, warns;
      HistorySnoc(old(results), old(playerLists), res, playerList);
    }

    /**
     * The end of a round in play_all_games, after the match with id i: when
     * the last num_bots results are not all the same, note their ids and count
     * those matches in the diff tables.
     */
    method CheckRound(i: int)
      requires Valid() && numBots <= |results|
      modifies this`diffResults, this`diffTally, this`diffHistory, this`gamesToLookAt
      ensures Valid()
      ensures Snap() == AfterRound(old(Snap()), i, numBots)
    {
      hide Recorded, DiffRecorded;
      var t, dr, la, dh := CloseRound(results, playerLists, diffTally, diffResults, gamesToLookAt, i, numBots,
                                      programNames, tally, diffHistory, gamesWithErrors, gamesWithWarnings, gamesPlayed);
      diffResults, diffTally, diffHistory, gamesToLookAt := dr, t, dh, la;
    }

    /**
     * One turn of the loop of play_all_games once the seating is known:
     * play the match, count it as played, and close the round when it was
     * the round's last seating.
     */
    method PlayMatch(id: int, playerList: seq<String>, config: String, m: Finished, ends: bool)
      requires Valid()
      requires |playerList| in Arities && FinishedFits(m, |playerList|)
      requires forall j :: 0 <= j < |playerList| ==> playerList[j] in programNames
      requires ends ==> numBots <= |results| + 1
      modifies this`results, this`playerLists, this`tally, this`gamesWithErrors, this`gamesWithWarnings, this`gamesPlayed
      modifies this`diffResults, this`diffTally, this`diffHistory, this`gamesToLookAt
      ensures Valid()
      ensures Snap() == Advance(old(Snap()), id, playerList, m, numBots, ends)
    {
      hide AllFit, TallyOf, ResultsOf, History, AfterGame, AfterRound, Advance, Expected;
      ghost var s0 := Snap();
      PlayGame(id, playerList, config, m);
      ghost var s1 := Snap();
      gamesPlayed := gamesPlayed + 1;
      assert Snap() == s1.(played := s1.played + 1);
      AdvanceSteps(s0, id, playerList, m, numBots, ends);
      if ends {
        CheckRound(id);
      }
    }

    /**
     * One turn of the loop of play_all_games, for match i: take the next
     * seating, refilling random_configs with a new round when it is empty,
     * then play the match.
     */
    method PlayTurn(i: nat, configs: seq<Seating>, round: nat, draws: seq<RoundDraws>, finished: seq<Finished>,
                    ghost end: nat, ghost s0: Snapshot)
      returns (configs': seq<Seating>, round': nat, ghost end': nat)
      requires Turn(i, configs, round, draws, finished, end, s0) && i < numberOfGames
      modifies this`results, this`playerLists, this`tally, this`gamesWithErrors, this`gamesWithWarnings, this`gamesPlayed
      modifies this`diffResults, this`diffTally, this`diffHistory, this`gamesToLookAt
      ensures Turn(i + 1, configs', round', draws, finished, end', s0)
    {
      ghost var sched := Schedule(programNames, draws);
      var seating;
      seating, configs', round', end' := NextSeating(configs, round, draws, i, end);
      assert SeatingFits(seating, programNames, Arity()) by {
        ScheduleFits(programNames, draws, Arity());
      }
      assert (configs' == [] ==> numBots <= |results| + 1)
        && Expected(s0, sched, finished, numBots, i + 1) == Advance(Snap(), i, seating.players, finished[i], numBots, configs' == []) by {
        ExpectedNext(s0, sched, finished, numBots, i, configs' == []);
      }
      PlayMatch(i, seating.players, seating.config, finished[i], configs' == []);
    }

    /**
     * The invariant of the loop of play_all_games before match i: the
     * arguments fit, the tables are consistent, and the matches before i
     * have been played as Progress says.
     */
    ghost predicate Turn(i: nat, configs: seq<Seating>, round: nat, draws: seq<RoundDraws>, finished: seq<Finished>,
                         end: nat, s0: Snapshot)
      reads this
    {
      // Bound to a name so that callers get one proof obligation, not one per conjunct.
      var holds :=
        && Valid() && numBots > 0 && Arity() in Arities && i <= numberOfGames
        && (forall r :: 0 <= r < |draws| ==> DrawsFitRound(draws[r], numBots, Arity()))
        && numberOfGames <= |Schedule(programNames, draws)| && |finished| == numberOfGames
        && (forall k :: 0 <= k < numberOfGames ==> FinishedFits(finished[k], Arity()))
        && Progress(i, configs, round, draws, finished, end, s0);
      holds
    }

    /** The invariant holds before the first match. */
    lemma TurnStart(draws: seq<RoundDraws>, finished: seq<Finished>) returns (s0: Snapshot)
      requires Valid() && numBots > 0 && Arity() in Arities
      requires forall r :: 0 <= r < |draws| ==> DrawsFitRound(draws[r], numBots, Arity())
      requires numberOfGames <= |Schedule(programNames, draws)|
      requires |finished| == numberOfGames
      requires forall i :: 0 <= i < numberOfGames ==> FinishedFits(finished[i], Arity())
      ensures s0 == Snap() && Turn(0, [], 0, draws, finished, 0, s0)
    {
      s0 := Snap();
    }

    /** What the invariant says once the loop is over. */
    lemma TurnMeans(i: nat, configs: seq<Seating>, round: nat, draws: seq<RoundDraws>, finished: seq<Finished>,
                    end: nat, s0: Snapshot)
      requires Turn(i, configs, round, draws, finished, end, s0)
      ensures Valid() && i <= numberOfGames && |results| == |playerLists|
      ensures i <= |finished| && i <= |Schedule(programNames, draws)| && numBots > 0
      ensures Snap() == Expected(s0, Schedule(programNames, draws), finished, numBots, i)
      ensures tally == TallyOf(programNames, History(results, playerLists)) && diffTally == TallyOf(programNames, diffHistory)
    {
    }

    /**
     * play_all_games: play number_of_games matches with ids 0, 1, ...; a new
     * round of seatings is drawn (draws[0], draws[1], ...) only when the last
     * one is used up, and seatings are taken from its end. After each complete
     * round whose results are not all the same, the ids of its matches go to
     * games_to_look_at and its matches are counted in the diff tables. The
     * match with id i ends as finished[i].
     */
    method PlayAllGames(draws: seq<RoundDraws>, finished: seq<Finished>)
      requires Valid() && numBots > 0 && Arity() in Arities
      requires forall r :: 0 <= r < |draws| ==> DrawsFitRound(draws[r], numBots, Arity())
      requires numberOfGames <= |Schedule(programNames, draws)|
      requires |finished| == numberOfGames
      requires forall i :: 0 <= i < numberOfGames ==> FinishedFits(finished[i], Arity())
      modifies this`results, this`playerLists, this`tally, this`gamesWithErrors, this`gamesWithWarnings, this`gamesPlayed
      modifies this`diffResults, this`diffTally, this`diffHistory, this`gamesToLookAt
      ensures Valid()
      ensures Snap() == Expected(old(Snap()), Schedule(programNames, draws), finished, numBots, numberOfGames)
      ensures tally == TallyOf(programNames, History(results, playerLists)) && diffTally == TallyOf(programNames, diffHistory)
    {
      hide *;
      var configs: seq<Seating> := [];
      var i := 0;
      var round: nat := 0;
      ghost var end := 0;
      ghost var s0 := TurnStart(draws, finished);
      while i < numberOfGames
        invariant Turn(i, configs, round, draws, finished, end, s0)
      {
        configs, round, end := PlayTurn(i, configs, round, draws, finished, end, s0);
        i := i + 1;
      }
      TurnMeans(i, configs, round, draws, finished, end, s0);
    }
  }
}
