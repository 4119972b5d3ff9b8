/**
 * Finishing a draft (src/router/routes/draft/finish.ts): the body's schema
 * check, the owner check, copying the client's piles back into the stored
 * draft, and building every bot's deck from its picks and the keys the deck
 * builder returns.
 */
module FinishDraft {
  import opened Wrappers
  import opened DeckGrid
  import opened DrafterReplay
  import opened CubeDraftPage

  // ------------------------------------------------------------ the request body

  /** A parsed JSON value; an object maps its keys to values (a missing key is `undefined`). */
  datatype Json = JNull | JBool(b: bool) | JNum(n: int) | JStr(s: string) | JArr(items: seq<Json>) | JObj(fields: map<string, Json>)

  /** `Number.MAX_SAFE_INTEGER`: `Joi.number()` refuses integers beyond it. */
  const MaxSafeInteger := 9007199254740991

  predicate IsSafe(n: int) {
    -MaxSafeInteger <= n <= MaxSafeInteger
  }

  /** `Joi.number()`. */
  predicate IsNumber(j: Json) {
    j.JNum? && IsSafe(j.n)
  }

  /** `Joi.array().items(Joi.number())`. */
  predicate IsNumberArray(j: Json) {
    j.JArr? && forall k :: 0 <= k < |j.items| ==> IsNumber(j.items[k])
  }

  /** A three-level number array: rows of cells of card indices. */
  predicate IsBoard(j: Json) {
    j.JArr? && forall r :: 0 <= r < |j.items| ==> IsBoardRow(j.items[r])
  }

  predicate IsBoardRow(j: Json) {
    j.JArr? && forall c :: 0 <= c < |j.items| ==> IsNumberArray(j.items[c])
  }

  /** A seat object: exactly the keys picks, trashed and pack, each a number array (no other key is allowed). */
  predicate IsSeat(j: Json) {
    && j.JObj?
    && j.fields.Keys == {"picks", "trashed", "pack"}
    && IsNumberArray(j.fields["picks"])
    && IsNumberArray(j.fields["trashed"])
    && IsNumberArray(j.fields["pack"])
  }

  predicate IsSeatArray(j: Json) {
    j.JArr? && forall i :: 0 <= i < |j.items| ==> IsSeat(j.items[i])
  }

  /** `state`: seats, pack and pick are required; other keys are allowed. */
  predicate IsState(j: Json) {
    && j.JObj?
    && "seats" in j.fields && IsSeatArray(j.fields["seats"])
    && "pack" in j.fields && IsNumber(j.fields["pack"])
    && "pick" in j.fields && IsNumber(j.fields["pick"])
  }

  /** FinishDraftBodySchema: state, mainboard and sideboard are required; other keys are allowed. */
  predicate ValidBody(j: Json) {
    && j.JObj?
    && "state" in j.fields && IsState(j.fields["state"])
    && "mainboard" in j.fields && IsBoard(j.fields["mainboard"])
    && "sideboard" in j.fields && IsBoard(j.fields["sideboard"])
  }

  /** A submitted seat. */
  datatype SeatBody = SeatBody(picks: seq<int>, trashed: seq<int>, pack: seq<int>)

  /** The fields of a valid body the handler reads. */
  datatype FinishBody = FinishBody(seats: seq<SeatBody>, pack: int, pick: int, mainboard: Grid, sideboard: Grid)

  function DecodeNumbers(j: Json): seq<int>
    requires IsNumberArray(j)
  {
    seq(|j.items|, k requires 0 <= k < |j.items| => j.items[k].n)
  }

  function DecodeBoard(j: Json): Grid
    requires IsBoard(j)
  {
    seq(|j.items|, r requires 0 <= r < |j.items| =>
      seq(|j.items[r].items|, c requires 0 <= c < |j.items[r].items| => DecodeNumbers(j.items[r].items[c])))
  }

  function DecodeSeat(j: Json): SeatBody
    requires IsSeat(j)
  {
    SeatBody(DecodeNumbers(j.fields["picks"]), DecodeNumbers(j.fields["trashed"]), DecodeNumbers(j.fields["pack"]))
  }

  /** validateBody: the body when the schema accepts it, `None` (a 400 answer) otherwise. */
  function DecodeBody(j: Json): (r: Option<FinishBody>)
    ensures r.Some? <==> ValidBody(j)
  {
    if !ValidBody(j) then None
    else
      var state := j.fields["state"];
      var seats := state.fields["seats"];
      Some(FinishBody(
        seq(|seats.items|, i requires 0 <= i < |seats.items| => DecodeSeat(seats.items[i])),
        state.fields["pack"].n,
        state.fields["pick"].n,
        DecodeBoard(j.fields["mainboard"]),
        DecodeBoard(j.fields["sideboard"])))
  }

  // The client's side of the exchange: the body it sends.

  function EncodeNumbers(xs: seq<int>): Json {
    JArr(seq(|xs|, k requires 0 <= k < |xs| => JNum(xs[k])))
  }

  function EncodeBoard(g: Grid): Json {
    JArr(seq(|g|, r requires 0 <= r < |g| =>
      JArr(seq(|g[r]|, c requires 0 <= c < |g[r]| => EncodeNumbers(g[r][c])))))
  }

  function EncodeSeat(s: SeatBody): Json {
    JObj(map["picks" := EncodeNumbers(s.picks), "trashed" := EncodeNumbers(s.trashed), "pack" := EncodeNumbers(s.pack)])
  }

  function EncodeBody(b: FinishBody): Json {
    JObj(map[
      "state" := JObj(map[
        "seats" := JArr(seq(|b.seats|, i requires 0 <= i < |b.seats| => EncodeSeat(b.seats[i]))),
        "pack" := JNum(b.pack),
        "pick" := JNum(b.pick)]),
      "mainboard" := EncodeBoard(b.mainboard),
      "sideboard" := EncodeBoard(b.sideboard)])
  }

  predicate SafeNumbers(xs: seq<int>) {
    forall k :: 0 <= k < |xs| ==> IsSafe(xs[k])
  }

  predicate SafeGrid(g: Grid) {
    forall r, c :: 0 <= r < |g| && 0 <= c < |g[r]| ==> SafeNumbers(g[r][c])
  }

  /** Every number of the body is a safe integer. */
  predicate SafeBody(b: FinishBody) {
    && IsSafe(b.pack) && IsSafe(b.pick)
    && SafeGrid(b.mainboard) && SafeGrid(b.sideboard)
    && forall i :: 0 <= i < |b.seats| ==>
         SafeNumbers(b.seats[i].picks) && SafeNumbers(b.seats[i].trashed) && SafeNumbers(b.seats[i].pack)
  }

  lemma NumbersRoundTrip(xs: seq<int>)
    requires SafeNumbers(xs)
    ensures IsNumberArray(EncodeNumbers(xs)) && DecodeNumbers(EncodeNumbers(xs)) == xs
  {
  }

  lemma {:induction false} BoardRoundTrip(g: Grid)
    requires SafeGrid(g)
    ensures IsBoard(EncodeBoard(g)) && DecodeBoard(EncodeBoard(g)) == g
  {
    var j := EncodeBoard(g);
    forall r, c | 0 <= r < |g| && 0 <= c < |g[r]|
      ensures IsNumberArray(j.items[r].items[c]) && DecodeNumbers(j.items[r].items[c]) == g[r][c]
    {
      NumbersRoundTrip(g[r][c]);
    }
    assert forall r :: 0 <= r < |g| ==> IsBoardRow(j.items[r]);
    var d := DecodeBoard(j);
    forall r | 0 <= r < |g|
      ensures d[r] == g[r]
    {
      assert |d[r]| == |g[r]|;
    }
  }

  /** Any body the client can send with safe integers passes the schema and decodes to itself. */
  lemma {:induction false} BodyRoundTrip(b: FinishBody)
    requires SafeBody(b)
    ensures DecodeBody(EncodeBody(b)) == Some(b)
  {
    var j := EncodeBody(b);
    BoardRoundTrip(b.mainboard);
    BoardRoundTrip(b.sideboard);
    var seats := j.fields["state"].fields["seats"];
    forall i | 0 <= i < |b.seats|
      ensures IsSeat(seats.items[i]) && DecodeSeat(seats.items[i]) == b.seats[i]
    {
      NumbersRoundTrip(b.seats[i].picks);
      NumbersRoundTrip(b.seats[i].trashed);
      NumbersRoundTrip(b.seats[i].pack);
    }
    assert IsSeatArray(seats);
    assert ValidBody(j);
    var d := DecodeBody(j).value;
    assert d.seats == b.seats;
  }

  /** A seat object with any key besides picks, trashed and pack is refused. */
  lemma ExtraSeatKeyRefused(j: Json, seat: Json, key: string)
    requires j.JObj? && "state" in j.fields && j.fields["state"].JObj? && "seats" in j.fields["state"].fields
    requires var seats := j.fields["state"].fields["seats"];
      seats.JArr? && seat in seats.items
    requires seat.JObj? && key in seat.fields && key !in {"picks", "trashed", "pack"}
    ensures DecodeBody(j) == None
  {
  }

  // ------------------------------------------------------------ bot decks

  /** Every index names a card of the draft (otherwise `draft.cards[index].details` throws). */
  predicate ValidIndices(xs: seq<int>, cards: seq<Card>) {
    forall k :: 0 <= k < |xs| ==> 0 <= xs[k] < |cards|
  }

  /** `xs.map((index) => draft.cards[index].details)`. */
  function Details(xs: seq<int>, cards: seq<Card>): seq<CardDetails>
    requires ValidIndices(xs, cards)
  {
    seq(|xs|, k requires 0 <= k < |xs| => cards[xs[k]].details)
  }

  /** The pool-matching loop's variables: the deck so far, the pool entries it took, and what is left of the pool. */
  datatype Resolution = Resolution(main: seq<int>, taken: seq<int>, pool: seq<int>)

  /**
   * One deck-builder key: the first pool entry with that oracle moves to the
   * deck; failing that, the first basic with that oracle is added and stays
   * available; failing that, the key is dropped.
   */
  function ResolveKey(r: Resolution, cards: seq<Card>, basics: seq<int>, key: string): Resolution {
    var poolIndex := FindIndex(Oracles(r.pool, cards), key);
    if poolIndex == -1 then
      var basicsIndex := FindIndex(Oracles(basics, cards), key);
      if basicsIndex == -1 then r else r.(main := r.main + [basics[basicsIndex]])
    else
      Resolution(r.main + [r.pool[poolIndex]], r.taken + [r.pool[poolIndex]],
                 r.pool[..poolIndex] + r.pool[poolIndex + 1..])
  }

  /** A key takes the first pool entry with its oracle; only when the pool has none does it fall back to the first such basic. */
  lemma ResolveKeyTakesFirstMatch(r: Resolution, cards: seq<Card>, basics: seq<int>, key: string)
    ensures var r' := ResolveKey(r, cards, basics, key);
      && ((exists j :: 0 <= j < |r.pool| && OracleAt(cards, r.pool[j]) == key) ==>
            exists j :: 0 <= j < |r.pool| && OracleAt(cards, r.pool[j]) == key
              && (forall i :: 0 <= i < j ==> OracleAt(cards, r.pool[i]) != key)
              && r' == Resolution(r.main + [r.pool[j]], r.taken + [r.pool[j]], r.pool[..j] + r.pool[j + 1..]))
      && ((forall j :: 0 <= j < |r.pool| ==> OracleAt(cards, r.pool[j]) != key) ==>
            && r'.taken == r.taken && r'.pool == r.pool
            && ((forall j :: 0 <= j < |basics| ==> OracleAt(cards, basics[j]) != key) ==> r'.main == r.main)
            && ((exists j :: 0 <= j < |basics| && OracleAt(cards, basics[j]) == key) ==>
                  exists j :: 0 <= j < |basics| && OracleAt(cards, basics[j]) == key
                    && (forall i :: 0 <= i < j ==> OracleAt(cards, basics[i]) != key)
                    && r'.main == r.main + [basics[j]]))
  {
    FirstWithOracle(r.pool, cards, key);
    if FindIndex(Oracles(r.pool, cards), key) != -1 {
      PoolMatchTaken(r, cards, basics, key);
    } else {
      BasicMatchAdded(r, cards, basics, key);
    }
  }

  /** A key found in the pool moves the first such entry to the deck. */
  lemma PoolMatchTaken(r: Resolution, cards: seq<Card>, basics: seq<int>, key: string)
    requires FindIndex(Oracles(r.pool, cards), key) != -1
    ensures var j := FindIndex(Oracles(r.pool, cards), key);
      && 0 <= j < |r.pool| && OracleAt(cards, r.pool[j]) == key
      && (forall i :: 0 <= i < j ==> OracleAt(cards, r.pool[i]) != key)
      && ResolveKey(r, cards, basics, key) == Resolution(r.main + [r.pool[j]], r.taken + [r.pool[j]], r.pool[..j] + r.pool[j + 1..])
  {
    FirstWithOracle(r.pool, cards, key);
  }

  /** A key missing from the pool adds the first basic with its oracle, if any, and leaves the pool alone. */
  lemma BasicMatchAdded(r: Resolution, cards: seq<Card>, basics: seq<int>, key: string)
    requires FindIndex(Oracles(r.pool, cards), key) == -1
    ensures var r' := ResolveKey(r, cards, basics, key);
      && r'.taken == r.taken && r'.pool == r.pool
      && ((forall j :: 0 <= j < |basics| ==> OracleAt(cards, basics[j]) != key) ==> r'.main == r.main)
      && ((exists j :: 0 <= j < |basics| && OracleAt(cards, basics[j]) == key) ==>
            exists j :: 0 <= j < |basics| && OracleAt(cards, basics[j]) == key
              && (forall i :: 0 <= i < j ==> OracleAt(cards, basics[i]) != key)
              && r'.main == r.main + [basics[j]])
  {
    FirstWithOracle(basics, cards, key);
    var b := FindIndex(Oracles(basics, cards), key);
    if b != -1 {
      assert OracleAt(cards, basics[b]) == key && forall i :: 0 <= i < b ==> OracleAt(cards, basics[i]) != key;
    }
  }

  /** FindIndex over the oracles of `xs`: -1 exactly when no entry has the oracle, else the first that has it. */
  lemma FirstWithOracle(xs: seq<int>, cards: seq<Card>, key: string)
    ensures var i := FindIndex(Oracles(xs, cards), key);
      && (i == -1 <==> forall j :: 0 <= j < |xs| ==> OracleAt(cards, xs[j]) != key)
      && (i != -1 ==> 0 <= i < |xs| && OracleAt(cards, xs[i]) == key && forall j :: 0 <= j < i ==> OracleAt(cards, xs[j]) != key)
  {
    var o := Oracles(xs, cards);
    assert forall j :: 0 <= j < |xs| ==> o[j] == OracleAt(cards, xs[j]);
  }

  /** The loop over the deck builder's keys, from the seat's picks as the pool. */
  function Resolve(cards: seq<Card>, basics: seq<int>, picks: seq<int>, keys: seq<string>): Resolution {
    if keys == [] then Resolution([], [], picks)
    else ResolveKey(Resolve(cards, basics, picks, keys[..|keys| - 1]), cards, basics, keys[|keys| - 1])
  }

  /** No pick is lost or duplicated: the taken entries and the remaining pool are the picks; the deck holds only picks and basics. */
  lemma ResolveKeyConserves(r: Resolution, cards: seq<Card>, basics: seq<int>, key: string)
    ensures var r' := ResolveKey(r, cards, basics, key);
      multiset(r'.taken) + multiset(r'.pool) == multiset(r.taken) + multiset(r.pool)
  {
    var poolIndex := FindIndex(Oracles(r.pool, cards), key);
    if poolIndex != -1 {
      PoolMatchTaken(r, cards, basics, key);
      RemoveAtMultiset(r.pool, poolIndex);
    } else {
      BasicMatchAdded(r, cards, basics, key);
    }
  }

  lemma RemoveAtMultiset(xs: seq<int>, j: int)
    requires 0 <= j < |xs|
    ensures multiset(xs[..j] + xs[j + 1..]) + multiset{xs[j]} == multiset(xs)
  {
    assert xs == xs[..j] + [xs[j]] + xs[j + 1..];
  }

  lemma {:induction false} ResolveConserves(cards: seq<Card>, basics: seq<int>, picks: seq<int>, keys: seq<string>)
    ensures var r := Resolve(cards, basics, picks, keys);
      multiset(r.taken) + multiset(r.pool) == multiset(picks)
  {
    if keys != [] {
      var front := keys[..|keys| - 1];
      ResolveConserves(cards, basics, picks, front);
      ResolveKeyConserves(Resolve(cards, basics, picks, front), cards, basics, keys[|keys| - 1]);
    }
  }

  /** The deck holds only picks and basics, at most one entry per key. */
  lemma {:induction false} ResolveDeckFrom(cards: seq<Card>, basics: seq<int>, picks: seq<int>, keys: seq<string>)
    ensures var r := Resolve(cards, basics, picks, keys);
      && (forall x :: x in r.main ==> x in picks || x in basics)
      && |r.main| <= |keys|
  {
    if keys != [] {
      var front := keys[..|keys| - 1];
      var key := keys[|keys| - 1];
      var before := Resolve(cards, basics, picks, front);
      ResolveDeckFrom(cards, basics, picks, front);
      ResolveConserves(cards, basics, picks, front);
      var r := ResolveKey(before, cards, basics, key);
      assert Resolve(cards, basics, picks, keys) == r;
      var poolIndex := FindIndex(Oracles(before.pool, cards), key);
      if poolIndex != -1 {
        var taken := before.pool[poolIndex];
        assert r.main == before.main + [taken];
        assert taken in multiset(before.pool);
        assert taken in multiset(picks);
      }
    }
  }

  /** Resolving keeps every deck entry and pool entry a card of the draft. */
  lemma ResolvedIndicesValid(cards: seq<Card>, basics: seq<int>, picks: seq<int>, keys: seq<string>)
    requires ValidIndices(picks, cards) && ValidIndices(basics, cards)
    ensures ValidIndices(Resolve(cards, basics, picks, keys).main, cards)
    ensures ValidIndices(Resolve(cards, basics, picks, keys).pool, cards)
  {
    var r := Resolve(cards, basics, picks, keys);
    ResolveConserves(cards, basics, picks, keys);
    ResolveDeckFrom(cards, basics, picks, keys);
    forall k | 0 <= k < |r.main| ensures 0 <= r.main[k] < |cards| {
      assert r.main[k] in picks || r.main[k] in basics;
    }
    forall k | 0 <= k < |r.pool| ensures 0 <= r.pool[k] < |cards| {
      assert r.pool[k] in multiset(picks);
    }
  }

  /** A card's default cell as a placement. */
  function DefaultPlacement(cards: seq<Card>, x: int): Placement
    requires 0 <= x < |cards|
  {
    var rc := GetCardDefaultRowColumn(cards[x]);
    Placement(x, rc.0, rc.1)
  }

  /** Every deck entry aimed at its default cell. */
  function MainPlacements(cards: seq<Card>, main: seq<int>): (ps: seq<Placement>)
    requires ValidIndices(main, cards)
    ensures |ps| == |main| && Fits(ps, 2, 8)
  {
    seq(|main|, k requires 0 <= k < |main| => DefaultPlacement(cards, main[k]))
  }

  /** Every remaining pool entry that is not a basic, aimed at row 0 of its default column. */
  function SidePlacements(cards: seq<Card>, basics: seq<int>, pool: seq<int>): (ps: seq<Placement>)
    requires ValidIndices(pool, cards)
    ensures Fits(ps, 1, 8)
    ensures forall k :: 0 <= k < |ps| ==> ps[k].row == 0
  {
    if pool == [] then []
    else
      var x := pool[|pool| - 1];
      SidePlacements(cards, basics, pool[..|pool| - 1])
        + (if x in basics then [] else [Placement(x, 0, DefaultPlacement(cards, x).col)])
  }

  function BotMainboard(cards: seq<Card>, main: seq<int>): Grid
    requires ValidIndices(main, cards)
  {
    Placed(EmptyGrid(2, 8), MainPlacements(cards, main))
  }

  function BotSideboard(cards: seq<Card>, basics: seq<int>, pool: seq<int>): Grid
    requires ValidIndices(pool, cards)
  {
    Placed(EmptyGrid(1, 8), SidePlacements(cards, basics, pool))
  }

  /** The bot mainboard is 2 x 8, and a card sits in a cell exactly when it is a deck entry whose default cell that is. */
  lemma BotMainboardCells(cards: seq<Card>, main: seq<int>, r: nat, c: nat, x: int)
    requires ValidIndices(main, cards) && r < 2 && c < 8
    ensures Shaped(BotMainboard(cards, main), 2, 8)
    ensures x in BotMainboard(cards, main)[r][c] <==>
      x in main && 0 <= x < |cards| && GetCardDefaultRowColumn(cards[x]) == (r, c)
  {
    var ps := MainPlacements(cards, main);
    PlacedFromEmpty(2, ps);
    InCellMembers(ps, r, c, x);
    if x in BotMainboard(cards, main)[r][c] {
      var k :| 0 <= k < |ps| && ps[k] == Placement(x, r, c);
      assert ps[k] == DefaultPlacement(cards, main[k]);
      assert main[k] == x;
    }
    if x in main && 0 <= x < |cards| && GetCardDefaultRowColumn(cards[x]) == (r, c) {
      var k :| 0 <= k < |main| && main[k] == x;
      assert ps[k] == Placement(x, r, c);
    }
  }

  lemma {:induction false} SidePlacementMembers(cards: seq<Card>, basics: seq<int>, pool: seq<int>, c: nat, x: int)
    requires ValidIndices(pool, cards)
    ensures (exists k :: 0 <= k < |SidePlacements(cards, basics, pool)| && SidePlacements(cards, basics, pool)[k] == Placement(x, 0, c))
      ==> x in pool && x !in basics && 0 <= x < |cards| && GetCardDefaultRowColumn(cards[x]).1 == c
    ensures (exists k :: 0 <= k < |SidePlacements(cards, basics, pool)| && SidePlacements(cards, basics, pool)[k] == Placement(x, 0, c))
      <== x in pool && x !in basics && 0 <= x < |cards| && GetCardDefaultRowColumn(cards[x]).1 == c
  {
    if pool != [] {
      var front := pool[..|pool| - 1];
      var ps := SidePlacements(cards, basics, pool);
      var fps := SidePlacements(cards, basics, front);
      var last := pool[|pool| - 1];
      SidePlacementMembers(cards, basics, front, c, x);
      assert ps == fps + (if last in basics then [] else [Placement(last, 0, DefaultPlacement(cards, last).col)]);
      assert pool == front + [last];
      if exists k :: 0 <= k < |ps| && ps[k] == Placement(x, 0, c) {
        var k :| 0 <= k < |ps| && ps[k] == Placement(x, 0, c);
        if k < |fps| {
          assert fps[k] == ps[k];
        } else {
          assert last !in basics && ps == fps + [Placement(last, 0, DefaultPlacement(cards, last).col)];
          assert ps[k] == Placement(last, 0, DefaultPlacement(cards, last).col);
          assert x == last && x in pool;
          assert GetCardDefaultRowColumn(cards[x]).1 == c;
        }
      }
      if x in pool && x !in basics && 0 <= x < |cards| && GetCardDefaultRowColumn(cards[x]).1 == c {
        if x in front {
          var k :| 0 <= k < |fps| && fps[k] == Placement(x, 0, c);
          assert ps[k] == Placement(x, 0, c);
        } else {
          assert x == last;
          assert DefaultPlacement(cards, last).col == c;
          assert ps == fps + [Placement(x, 0, c)];
          assert ps[|ps| - 1] == Placement(x, 0, c);
        }
      }
    }
  }

  /** The bot sideboard is 1 x 8: a card sits in column c exactly when it is left in the pool, is not a basic, and its default column is c. */
  lemma BotSideboardCells(cards: seq<Card>, basics: seq<int>, pool: seq<int>, c: nat, x: int)
    requires ValidIndices(pool, cards) && c < 8
    ensures Shaped(BotSideboard(cards, basics, pool), 1, 8)
    ensures x in BotSideboard(cards, basics, pool)[0][c] <==>
      x in pool && x !in basics && 0 <= x < |cards| && GetCardDefaultRowColumn(cards[x]).1 == c
  {
    var ps := SidePlacements(cards, basics, pool);
    PlacedFromEmpty(1, ps);
    assert BotSideboard(cards, basics, pool)[0][c] == InCell(ps, 0, c);
    InCellMembers(ps, 0, c, x);
    SidePlacementMembers(cards, basics, pool, c, x);
  }

  /** The deck entries whose default cell is (r, c), in deck order. */
  function DeckInCell(cards: seq<Card>, main: seq<int>, r: nat, c: nat): seq<int>
    requires ValidIndices(main, cards)
  {
    if main == [] then []
    else
      var x := main[|main| - 1];
      DeckInCell(cards, main[..|main| - 1], r, c) + (if GetCardDefaultRowColumn(cards[x]) == (r, c) then [x] else [])
  }

  /** The remaining non-basic pool entries whose default column is c, in pool order. */
  function PoolInColumn(cards: seq<Card>, basics: seq<int>, pool: seq<int>, c: nat): seq<int>
    requires ValidIndices(pool, cards)
  {
    if pool == [] then []
    else
      var x := pool[|pool| - 1];
      PoolInColumn(cards, basics, pool[..|pool| - 1], c)
        + (if x !in basics && GetCardDefaultRowColumn(cards[x]).1 == c then [x] else [])
  }

  lemma {:induction false} MainPlacementsInCell(cards: seq<Card>, main: seq<int>, r: nat, c: nat)
    requires ValidIndices(main, cards)
    ensures InCell(MainPlacements(cards, main), r, c) == DeckInCell(cards, main, r, c)
  {
    if main != [] {
      var front := main[..|main| - 1];
      MainPlacementsInCell(cards, front, r, c);
      assert MainPlacements(cards, main)[..|main| - 1] == MainPlacements(cards, front);
    }
  }

  lemma {:induction false} SidePlacementsInCell(cards: seq<Card>, basics: seq<int>, pool: seq<int>, c: nat)
    requires ValidIndices(pool, cards)
    ensures InCell(SidePlacements(cards, basics, pool), 0, c) == PoolInColumn(cards, basics, pool, c)
  {
    if pool != [] {
      var front := pool[..|pool| - 1];
      var x := pool[|pool| - 1];
      var fps := SidePlacements(cards, basics, front);
      SidePlacementsInCell(cards, basics, front, c);
      if x !in basics {
        var p := Placement(x, 0, DefaultPlacement(cards, x).col);
        assert (fps + [p])[..|fps|] == fps;
      } else {
        assert fps + [] == fps;
      }
    }
  }

  /** Each bot mainboard cell lists exactly the deck entries whose default cell it is, as often and in the order they occur in the deck. */
  lemma BotMainboardCellOrder(cards: seq<Card>, main: seq<int>, r: nat, c: nat)
    requires ValidIndices(main, cards) && r < 2 && c < 8
    ensures BotMainboard(cards, main)[r][c] == DeckInCell(cards, main, r, c)
  {
    PlacedFromEmpty(2, MainPlacements(cards, main));
    MainPlacementsInCell(cards, main, r, c);
  }

  /** Each bot sideboard column lists exactly the remaining non-basic pool entries of that default column, in pool order. */
  lemma BotSideboardColumnOrder(cards: seq<Card>, basics: seq<int>, pool: seq<int>, c: nat)
    requires ValidIndices(pool, cards) && c < 8
    ensures BotSideboard(cards, basics, pool)[0][c] == PoolInColumn(cards, basics, pool, c)
  {
    PlacedFromEmpty(1, SidePlacements(cards, basics, pool));
    SidePlacementsInCell(cards, basics, pool, c);
  }

  /** The pool-matching loop of one bot seat. */
  method ResolveBotPicks(cards: seq<Card>, basics: seq<int>, picks: seq<int>, keys: seq<string>)
    returns (newMainboard: seq<int>, pool: seq<int>)
    ensures newMainboard == Resolve(cards, basics, picks, keys).main
    ensures pool == Resolve(cards, basics, picks, keys).pool
  {
    pool := picks;
    newMainboard := [];
    ghost var taken: seq<int> := [];
    for k := 0 to |keys|
      invariant Resolution(newMainboard, taken, pool) == Resolve(cards, basics, picks, keys[..k])
    {
      assert keys[..k + 1][..k] == keys[..k];
      var oracle := keys[k];
      var poolIndex := FindIndex(Oracles(pool, cards), oracle);
      if poolIndex == -1 {
        var basicsIndex := FindIndex(Oracles(basics, cards), oracle);
        if basicsIndex != -1 {
          newMainboard := newMainboard + [basics[basicsIndex]];
        }
      } else {
        newMainboard := newMainboard + [pool[poolIndex]];
        taken := taken + [pool[poolIndex]];
        pool := pool[..poolIndex] + pool[poolIndex + 1..];
      }
    }
    assert keys[..|keys|] == keys;
  }

  /** Pushing one more placement onto a placed grid. */
  lemma PlacedSnoc(g: Grid, ps: seq<Placement>, p: Placement)
    requires Shaped(g, |g|, 8) && Fits(ps, |g|, 8) && p.row < |g| && p.col < 8
    ensures Fits(ps + [p], |g|, 8)
    ensures Placed(g, ps + [p]) == Push(Placed(g, ps), p.row, p.col, p.ref)
  {
    assert (ps + [p])[..|ps|] == ps;
  }

  /** The mainboard loop: every deck entry pushed into its default cell of a fresh 2 x 8 grid. */
  method FormatMainboard(cards: seq<Card>, main: seq<int>) returns (g: Grid)
    requires ValidIndices(main, cards)
    ensures g == BotMainboard(cards, main)
  {
    g := SetupPicks(2, 8);
    var ps := MainPlacements(cards, main);
    for k := 0 to |main|
      invariant g == Placed(EmptyGrid(2, 8), ps[..k])
    {
      var index := main[k];
      var rc := GetCardDefaultRowColumn(cards[index]);
      assert ps[..k + 1] == ps[..k] + [Placement(index, rc.0, rc.1)];
      PlacedSnoc(EmptyGrid(2, 8), ps[..k], Placement(index, rc.0, rc.1));
      g := Push(g, rc.0, rc.1, index);
    }
    assert ps[..|main|] == ps;
  }

  /** The sideboard loop: every remaining non-basic pool entry pushed into row 0 of a fresh 1 x 8 grid. */
  method FormatSideboard(cards: seq<Card>, basics: seq<int>, pool: seq<int>) returns (g: Grid)
    requires ValidIndices(pool, cards)
    ensures g == BotSideboard(cards, basics, pool)
  {
    g := SetupPicks(1, 8);
    for k := 0 to |pool|
      invariant g == Placed(EmptyGrid(1, 8), SidePlacements(cards, basics, pool[..k]))
    {
      var index := pool[k];
      assert pool[..k + 1][..k] == pool[..k];
      var before := SidePlacements(cards, basics, pool[..k]);
      if index !in basics {
        var col := GetCardDefaultRowColumn(cards[index]).1;
        PlacedSnoc(EmptyGrid(1, 8), before, Placement(index, 0, col));
        g := Push(g, 0, col, index);
      } else {
        assert before + [] == before;
      }
    }
    assert pool[..|pool|] == pool;
  }

  // ------------------------------------------------------------ the handler

  /** `draft.owner`: an id string, or a user object whose id may be missing. */
  datatype Owner = OwnerId(id: string) | OwnerUser(userId: Option<string>)

  /** `typeof draft.owner !== 'string' ? draft.owner?.id : draft.owner`. */
  function DraftOwnerId(owner: Owner): Option<string> {
    match owner
    case OwnerId(id) => Some(id)
    case OwnerUser(userId) => userId
  }

  /** The handler's answers. */
  datatype Reply = BadRequest | NotFound | NotLoggedIn | NotOwner | ServerError | Done

  function Status(r: Reply): nat {
    match r
    case BadRequest => 400
    case NotFound => 404
    case NotLoggedIn => 401
    case NotOwner => 401
    case ServerError => 500
    case Done => 200
  }

  /** The deck builder (src/util/draftbots, not part of this model): the oracle ids of a deck, from a pool and the basics. */
  type DeckBuilder = (seq<CardDetails>, seq<CardDetails>) -> seq<string>

  /**
   * When the handler throws after its checks (answering 500 and storing
   * nothing): no seats, more submitted seats than stored ones, a bot seat the
   * body lacks, or a bot pick or basic naming no card.
   */
  predicate Throws(seats: seq<DraftSeat>, cards: seq<Card>, basics: seq<int>, body: FinishBody) {
    var n := |seats|;
    || n == 0
    || |body.seats| > n
    || (n > 1 && (|body.seats| < n || !ValidIndices(basics, cards)
                  || exists i :: 1 <= i < n && !ValidIndices(body.seats[i].picks, cards)))
  }

  /** Bot seat `i`'s deck: the deck builder's keys resolved against its picks, then laid out. */
  function BotBoards(cards: seq<Card>, basics: seq<int>, picks: seq<int>, deckbuild: DeckBuilder): (boards: (Grid, Grid))
    requires ValidIndices(picks, cards) && ValidIndices(basics, cards)
    ensures Shaped(boards.0, 2, 8) && Shaped(boards.1, 1, 8)
  {
    var keys := deckbuild(Details(picks, cards), Details(basics, cards));
    var r := Resolve(cards, basics, picks, keys);
    ResolvedIndicesValid(cards, basics, picks, keys);
    (BotMainboard(cards, r.main), BotSideboard(cards, basics, r.pool))
  }

  /** Seat `i` after the handler: piles copied from the body, seat 0's boards verbatim, a bot's boards built. */
  function FinishedSeat(seats: seq<DraftSeat>, cards: seq<Card>, basics: seq<int>, body: FinishBody,
                        deckbuild: DeckBuilder, i: nat): DraftSeat
    requires i < |seats| && !Throws(seats, cards, basics, body)
  {
    var copied :=
      if i < |body.seats| then seats[i].(pickorder := Some(body.seats[i].picks), trashorder := Some(body.seats[i].trashed))
      else seats[i];
    if i == 0 then copied.(mainboard := body.mainboard, sideboard := body.sideboard)
    else
      var boards := BotBoards(cards, basics, body.seats[i].picks, deckbuild);
      copied.(mainboard := boards.0, sideboard := boards.1)
  }

  function FinishedSeats(seats: seq<DraftSeat>, cards: seq<Card>, basics: seq<int>, body: FinishBody,
                         deckbuild: DeckBuilder): (r: seq<DraftSeat>)
    requires !Throws(seats, cards, basics, body)
    ensures |r| == |seats|
  {
    seq(|seats|, i requires 0 <= i < |seats| => FinishedSeat(seats, cards, basics, body, deckbuild, i))
  }

  /**
   * What a finished draft holds: every submitted seat's piles, seat 0's boards
   * as sent, and for every bot a 2 x 8 mainboard and 1 x 8 sideboard whose
   * cells hold the resolved deck and the remaining non-basic picks.
   */
  lemma FinishedSeatsShape(seats: seq<DraftSeat>, cards: seq<Card>, basics: seq<int>, body: FinishBody,
                           deckbuild: DeckBuilder, i: nat)
    requires i < |seats| && !Throws(seats, cards, basics, body)
    ensures var s := FinishedSeats(seats, cards, basics, body, deckbuild)[i];
      && (i < |body.seats| ==> s.pickorder == Some(body.seats[i].picks) && s.trashorder == Some(body.seats[i].trashed))
      && (i >= |body.seats| ==> s.pickorder == seats[i].pickorder && s.trashorder == seats[i].trashorder)
      && (i == 0 ==> s.mainboard == body.mainboard && s.sideboard == body.sideboard)
      && (i > 0 ==> Shaped(s.mainboard, 2, 8) && Shaped(s.sideboard, 1, 8))
  {
  }

  /** One bot seat's deck: ask the deck builder, match its keys against the picks, lay out both boards. */
  method BuildBotDeck(cards: seq<Card>, basics: seq<int>, picks: seq<int>, deckbuild: DeckBuilder)
    returns (mainboard: Grid, sideboard: Grid)
    requires ValidIndices(picks, cards) && ValidIndices(basics, cards)
    ensures (mainboard, sideboard) == BotBoards(cards, basics, picks, deckbuild)
  {
    var keys := deckbuild(Details(picks, cards), Details(basics, cards));
    var newMainboard, pool := ResolveBotPicks(cards, basics, picks, keys);
    ResolvedIndicesValid(cards, basics, picks, keys);
    mainboard := FormatMainboard(cards, newMainboard);
    sideboard := FormatSideboard(cards, basics, pool);
  }

  /** A stored draft as the handler loads it; the handler updates its seats and `complete` in place. */
  class DraftRecord {
    const cards: seq<Card>
    const basics: seq<int>
    const owner: Owner
    var seats: seq<DraftSeat>
    var complete: bool

    constructor (cards: seq<Card>, basics: seq<int>, owner: Owner, seats: seq<DraftSeat>, complete: bool)
      ensures this.cards == cards && this.basics == basics && this.owner == owner
      ensures this.seats == seats && this.complete == complete
    {
      this.cards := cards;
      this.basics := basics;
      this.owner := owner;
      this.seats := seats;
      this.complete := complete;
    }

    /** The bot loop: every seat from 1 on gets the boards built from its submitted picks. */
    method BuildBotDecks(body: FinishBody, deckbuild: DeckBuilder)
      requires !Throws(seats, cards, basics, body) && 0 < |body.seats| && |seats| > 0
      requires |body.seats| == |seats| || |seats| == 1
      modifies this
      ensures complete == old(complete) && |seats| == |old(seats)| && seats[0] == old(seats[0])
      ensures forall i :: 1 <= i < |seats| ==>
        var boards := BotBoards(cards, basics, body.seats[i].picks, deckbuild);
        seats[i] == old(seats[i]).(mainboard := boards.0, sideboard := boards.1)
    {
      for i := 1 to |seats|
        invariant |seats| == |old(seats)| && seats[0] == old(seats[0]) && complete == old(complete)
        invariant forall j :: 1 <= j < i ==>
          var boards := BotBoards(cards, basics, body.seats[j].picks, deckbuild);
          seats[j] == old(seats[j]).(mainboard := boards.0, sideboard := boards.1)
        invariant forall j :: i <= j < |seats| ==> seats[j] == old(seats[j])
      {
        var formattedMainboard, formattedSideboard := BuildBotDeck(cards, basics, body.seats[i].picks, deckbuild);
        seats := seats[i := seats[i].(mainboard := formattedMainboard, sideboard := formattedSideboard)];
      }
    }

    /**
     * The handler, after validateBody: 404, 401 and 401 before any change;
     * 500 and nothing stored when it would throw; otherwise the seats are
     * filled in, the draft is complete and stored.
     */
    method Finish(user: Option<string>, body: FinishBody, deckbuild: DeckBuilder) returns (reply: Reply)
      modifies this
      ensures user.None? ==> reply == NotLoggedIn && unchanged(this)
      ensures user.Some? && DraftOwnerId(owner) != user ==> reply == NotOwner && unchanged(this)
      ensures user.Some? && DraftOwnerId(owner) == user && Throws(old(seats), cards, basics, body) ==>
        reply == ServerError && unchanged(this)
      ensures user.Some? && DraftOwnerId(owner) == user && !Throws(old(seats), cards, basics, body) ==>
        && reply == Done && complete
        && seats == FinishedSeats(old(seats), cards, basics, body, deckbuild)
    {
      if user.None? {
        return NotLoggedIn;
      }
      if DraftOwnerId(owner) != user {
        return NotOwner;
      }
      if Throws(seats, cards, basics, body) {
        return ServerError;
      }
      ghost var start := seats;
      for i := 0 to |body.seats|
        invariant |seats| == |start|
        invariant forall j :: 0 <= j < i ==>
          seats[j] == start[j].(pickorder := Some(body.seats[j].picks), trashorder := Some(body.seats[j].trashed))
        invariant forall j :: i <= j < |seats| ==> seats[j] == start[j]
      {
        seats := seats[i := seats[i].(pickorder := Some(body.seats[i].picks), trashorder := Some(body.seats[i].trashed))];
      }
      seats := seats[0 := seats[0].(mainboard := body.mainboard, sideboard := body.sideboard)];
      complete := true;
      if |body.seats| > 0 {
        BuildBotDecks(body, deckbuild);
      }
      forall i | 0 <= i < |seats|
        ensures seats[i] == FinishedSeat(start, cards, basics, body, deckbuild, i)
      {
      }
      return Done;
    }
  }

  /** The route: validateBody, then the handler on the draft loaded by id (null when none). */
  method FinishRoute(j: Json, draft: DraftRecord?, user: Option<string>, deckbuild: DeckBuilder) returns (reply: Reply)
    modifies draft
    ensures DecodeBody(j).None? ==> reply == BadRequest && (draft != null ==> unchanged(draft))
    ensures DecodeBody(j).Some? && draft == null ==> reply == NotFound
    ensures DecodeBody(j).Some? && draft != null && user.None? ==> reply == NotLoggedIn && unchanged(draft)
    ensures DecodeBody(j).Some? && draft != null && user.Some? && DraftOwnerId(draft.owner) != user ==>
      reply == NotOwner && unchanged(draft)
    ensures (&& DecodeBody(j).Some? && draft != null && user.Some? && DraftOwnerId(draft.owner) == user
             && Throws(old(draft.seats), draft.cards, draft.basics, DecodeBody(j).value)) ==>
      reply == ServerError && unchanged(draft)
    ensures (&& DecodeBody(j).Some? && draft != null && user.Some? && DraftOwnerId(draft.owner) == user
             && !Throws(old(draft.seats), draft.cards, draft.basics, DecodeBody(j).value)) ==>
        && reply == Done && draft.complete
        && draft.seats == FinishedSeats(old(draft.seats), draft.cards, draft.basics, DecodeBody(j).value, deckbuild)
  {
    var body := DecodeBody(j);
    if body.None? {
      return BadRequest;
    }
    if draft == null {
      return NotFound;
    }
    reply := draft.Finish(user, body.value, deckbuild);
  }
}
