/**
 * The client-side draft of src/client/pages/CubeDraftPage.tsx: the human sits
 * at seat 0, bots fill the other seats, and every pick advances the whole
 * table at once (makePick). Bots pick from the predictions the draftbot
 * service returned for the current pack; the network answer is an input here.
 */
module CubeDraftPage {
  import opened Wrappers
  import opened Strings
  import opened DraftSteps
  import opened DeckGrid
  import opened InitialStates
  import DrafterReplay

  /** One entry of a seat's prediction list: a card (by oracle id) and its rating. */
  datatype Prediction = Prediction(oracle: string, rating: real)

  /** The `prediction` field of the service's answer: one list per seat, seat 0 first. */
  type PredictResponse = seq<seq<Prediction>>

  /** `{ index, oracle_id }` sent along with a prediction request. */
  datatype PackCard = PackCard(index: int, oracleId: string)

  /** Where a human pick goes; anything but the deck is the sideboard. */
  datatype Location = Deck | Sideboard

  /** How makePick ended. */
  datatype Outcome =
    | Blocked      // a status flag refused the pick
    | Crashed      // the code threw; `loading` stays set
    | Skipped      // the current step was a pass or an endpack
    | NoNextStep   // the queue ran out after the pick
    | Continued    // the next step is another pick or trash
    | Passed       // the packs moved one seat
    | Opened       // every seat opened its next pack
    | Finished     // the last pack is done; the draft is submitted

  /** The page state makePick reads and writes. */
  datatype PageState = PageState(
    seats: seq<Seat>,
    stepQueue: seq<DraftStep>,
    pack: int,
    pick: int,
    mainboard: Grid,
    sideboard: Grid,
    ratings: seq<real>,
    currentPredictions: Option<PredictResponse>,
    loading: bool,
    predictionsLoading: bool,
    predictError: bool)

  /** What the page knows about the draft: its cards and the dealt packs, if any. */
  datatype Draft = Draft(cards: seq<Card>, initialState: Option<seq<seq<InitialPack>>>)

  /**
   * The arguments of one makePick call. `randoms[i]` is the value
   * `Math.floor(Math.random() * pack.length)` takes for seat `i`; `response`
   * is the prediction service's answer, `None` when the request fails.
   */
  datatype PickInput = PickInput(
    index: int,
    location: Location,
    row: int,
    col: int,
    randoms: seq<int>,
    response: Option<PredictResponse>)

  // ------------------------------------------------------------ JavaScript arrays

  /** `s[i]`, `undefined` (None) outside the array or for an undefined index. */
  function JsAt(s: seq<int>, i: Option<int>): Option<int> {
    if i.Some? && 0 <= i.value < |s| then Some(s[i.value]) else None
  }

  /** Where `splice(start, 1)` removes: undefined counts as 0, a negative start counts from the end. */
  function SpliceStart(len: int, start: Option<int>): int {
    match start
    case None => 0
    case Some(k) => if k >= 0 then k else if len + k < 0 then 0 else len + k
  }

  /** `s.splice(start, 1)`: the array without the element at the normalised start, if there is one. */
  function JsSplice(s: seq<int>, start: Option<int>): seq<int> {
    var k := SpliceStart(|s|, start);
    if 0 <= k < |s| then s[..k] + s[k + 1..] else s
  }

  /** Splicing at an index of the array removes exactly the card there. */
  lemma SpliceInRange(s: seq<int>, i: int)
    requires 0 <= i < |s|
    ensures JsSplice(s, Some(i)) == s[..i] + s[i + 1..]
    ensures multiset(JsSplice(s, Some(i))) + multiset{s[i]} == multiset(s)
  {
    assert s == s[..i] + [s[i]] + s[i + 1..];
  }

  /** `splice(-1, 1)` on a non-empty array drops its last element. */
  lemma SpliceMinusOne(s: seq<int>)
    requires |s| > 0
    ensures JsSplice(s, Some(-1)) == s[..|s| - 1]
  {
  }

  /** `splice(undefined, 1)` on a non-empty array drops its first element. */
  lemma SpliceUndefined(s: seq<int>)
    requires |s| > 0
    ensures JsSplice(s, None) == s[1..]
  {
  }

  // ------------------------------------------------------------ predictions

  /** `draft.cards[i]?.details?.oracle_id`, with the empty string for a missing card. */
  function OracleAt(cards: seq<Card>, i: int): string {
    if 0 <= i < |cards| then cards[i].details.oracleId else ""
  }

  /** `pack.map((i) => draft.cards[i].details?.oracle_id)`. */
  function Oracles(pack: seq<int>, cards: seq<Card>): (r: seq<string>)
    ensures |r| == |pack|
  {
    seq(|pack|, j requires 0 <= j < |pack| => OracleAt(cards, pack[j]))
  }

  /** `new Map(list.map((p) => [p.oracle, p.rating])).get(oracle)`: a later entry overwrites an earlier one. */
  function Lookup(ps: seq<Prediction>, oracle: string): Option<real> {
    if ps == [] then None
    else if ps[|ps| - 1].oracle == oracle then Some(ps[|ps| - 1].rating)
    else Lookup(ps[..|ps| - 1], oracle)
  }

  /** The map holds an oracle exactly when the list names it, and then with the rating of its last entry. */
  lemma {:induction false} LookupLastWins(ps: seq<Prediction>, oracle: string)
    ensures Lookup(ps, oracle).None? <==> forall k :: 0 <= k < |ps| ==> ps[k].oracle != oracle
    ensures Lookup(ps, oracle).Some? ==>
      exists k :: 0 <= k < |ps| && ps[k].oracle == oracle && ps[k].rating == Lookup(ps, oracle).value
        && forall j :: k < j < |ps| ==> ps[j].oracle != oracle
  {
    if ps == [] {
    } else if ps[|ps| - 1].oracle == oracle {
      var k := |ps| - 1;
      assert ps[k].oracle == oracle && ps[k].rating == Lookup(ps, oracle).value;
    } else {
      var last := |ps| - 1;
      var front := ps[..last];
      LookupLastWins(front, oracle);
      assert Lookup(ps, oracle) == Lookup(front, oracle);
      if Lookup(front, oracle).Some? {
        var k :| 0 <= k < |front| && front[k].oracle == oracle && front[k].rating == Lookup(front, oracle).value
          && forall j :: k < j < |front| ==> front[j].oracle != oracle;
        assert ps[k] == front[k];
        forall j | k < j < |ps| ensures ps[j].oracle != oracle {
          if j < last {
            assert ps[j] == front[j];
          }
        }
      } else {
        forall k | 0 <= k < |ps| ensures ps[k].oracle != oracle {
          if k < last {
            assert ps[k] == front[k];
          }
        }
      }
    }
  }

  /** processPredictions: seat 0's rating of every pack card, 0 for a card the answer does not rate. */
  function ProcessPredictions(prediction: PredictResponse, packCards: seq<PackCard>): (r: seq<real>)
    requires |prediction| > 0
    ensures |r| == |packCards|
  {
    seq(|packCards|, i requires 0 <= i < |packCards| => Lookup(prediction[0], packCards[i].oracleId).GetOr(0.0))
  }

  /** Every pack card gets the rating of the last entry of seat 0's list naming it, or 0 when none does. */
  lemma ProcessPredictionsRatings(prediction: PredictResponse, packCards: seq<PackCard>, i: nat)
    requires |prediction| > 0 && i < |packCards|
    ensures var r := ProcessPredictions(prediction, packCards)[i];
      var ps := prediction[0];
      var o := packCards[i].oracleId;
      && ((forall k :: 0 <= k < |ps| ==> ps[k].oracle != o) ==> r == 0.0)
      && ((exists k :: 0 <= k < |ps| && ps[k].oracle == o) ==>
            exists k :: 0 <= k < |ps| && ps[k].oracle == o && r == ps[k].rating
              && forall j :: k < j < |ps| ==> ps[j].oracle != o)
  {
    LookupLastWins(prediction[0], packCards[i].oracleId);
  }

  /** The pack cards of a prediction request: seat 0's pack, without cards that have no oracle id. */
  function PackCards(pack: seq<int>, cards: seq<Card>): (r: seq<PackCard>)
    ensures |r| <= |pack|
    ensures forall k :: 0 <= k < |r| ==>
      r[k].index in pack && r[k].oracleId != "" && r[k].oracleId == OracleAt(cards, r[k].index)
  {
    if pack == [] then []
    else
      var rest := PackCards(pack[..|pack| - 1], cards);
      var c := pack[|pack| - 1];
      assert forall k :: 0 <= k < |rest| ==> rest[k].index in pack[..|pack| - 1];
      if OracleAt(cards, c) != "" then rest + [PackCard(c, OracleAt(cards, c))] else rest
  }

  /** No card with an oracle id is filtered out. */
  lemma {:induction false} PackCardsComplete(pack: seq<int>, cards: seq<Card>, c: int)
    requires c in pack && OracleAt(cards, c) != ""
    ensures exists k :: 0 <= k < |PackCards(pack, cards)| && PackCards(pack, cards)[k].index == c
  {
    var front := pack[..|pack| - 1];
    var r := PackCards(pack, cards);
    if c == pack[|pack| - 1] {
      assert r[|r| - 1].index == c;
    } else {
      assert c in front;
      PackCardsComplete(front, cards, c);
      var k :| 0 <= k < |PackCards(front, cards)| && PackCards(front, cards)[k].index == c;
      assert r[k] == PackCards(front, cards)[k];
    }
  }

  /** The pack's card indices that have an oracle id, front to back: `pack.filter(...)` read from the start. */
  function WithOracle(pack: seq<int>, cards: seq<Card>): seq<int> {
    if pack == [] then []
    else (if OracleAt(cards, pack[0]) != "" then [pack[0]] else []) + WithOracle(pack[1..], cards)
  }

  /** The card indices of a prediction request, in order. */
  function RequestIndices(r: seq<PackCard>): (ix: seq<int>)
    ensures |ix| == |r| && forall k :: 0 <= k < |r| ==> ix[k] == r[k].index
  {
    seq(|r|, k requires 0 <= k < |r| => r[k].index)
  }

  /** Filtering a pack with one more card at its end filters the front and then that card. */
  lemma {:induction false} WithOracleSnoc(pack: seq<int>, c: int, cards: seq<Card>)
    ensures WithOracle(pack + [c], cards) == WithOracle(pack, cards) + (if OracleAt(cards, c) != "" then [c] else [])
  {
    if pack != [] {
      assert (pack + [c])[1..] == pack[1..] + [c];
      WithOracleSnoc(pack[1..], c, cards);
    } else {
      assert [c][1..] == [];
    }
  }

  /** The request names exactly the pack's cards that have an oracle id, in pack order and with their repeats. */
  lemma {:induction false} PackCardsInOrder(pack: seq<int>, cards: seq<Card>)
    ensures RequestIndices(PackCards(pack, cards)) == WithOracle(pack, cards)
  {
    if pack != [] {
      var front := pack[..|pack| - 1];
      var c := pack[|pack| - 1];
      PackCardsInOrder(front, cards);
      assert pack == front + [c];
      WithOracleSnoc(front, c, cards);
      var rest := PackCards(front, cards);
      if OracleAt(cards, c) != "" {
        assert RequestIndices(rest + [PackCard(c, OracleAt(cards, c))]) == RequestIndices(rest) + [c];
      }
    }
  }

  /** The entry `seat.reduce((prev, cur) => prev.rating > cur.rating ? prev : cur)` returns, by position. */
  function BestIndex(ps: seq<Prediction>): (k: nat)
    requires |ps| > 0
    ensures k < |ps|
  {
    if |ps| == 1 then 0
    else
      var b := BestIndex(ps[..|ps| - 1]);
      if ps[b].rating > ps[|ps| - 1].rating then b else |ps| - 1
  }

  /** The bot's choice has the highest rating, and every later entry rates strictly lower: ties go to the last. */
  lemma {:induction false} BestIsLastMaximum(ps: seq<Prediction>)
    requires |ps| > 0
    ensures forall j :: 0 <= j < |ps| ==> ps[j].rating <= ps[BestIndex(ps)].rating
    ensures forall j :: BestIndex(ps) < j < |ps| ==> ps[j].rating < ps[BestIndex(ps)].rating
  {
    if |ps| > 1 {
      var front := ps[..|ps| - 1];
      BestIsLastMaximum(front);
      var b := BestIndex(front);
      assert forall j :: 0 <= j < |front| ==> ps[j] == front[j];
    }
  }

  /** `xs.findIndex((x) => x === target)`. */
  function FindIndex(xs: seq<string>, target: string): (r: int)
    ensures -1 <= r < |xs|
    ensures r == -1 <==> forall j :: 0 <= j < |xs| ==> xs[j] != target
    ensures r >= 0 ==> xs[r] == target && forall j :: 0 <= j < r ==> xs[j] != target
  {
    if xs == [] then -1
    else if xs[0] == target then 0
    else
      var r := FindIndex(xs[1..], target);
      assert forall j :: 1 <= j < |xs| ==> xs[j] == xs[1..][j - 1];
      if r == -1 then -1 else r + 1
  }

  /**
   * The pack position a bot picks: -1 for an empty pack, the random index for
   * an empty prediction list, else the first card whose oracle is that of
   * the best-rated prediction (-1 when the pack holds none).
   */
  function BotChoice(pack: seq<int>, cards: seq<Card>, preds: seq<Prediction>, random: int): (c: int)
    ensures |pack| == 0 ==> c == -1
    ensures |pack| > 0 && preds == [] ==> c == random
    ensures |pack| > 0 && preds != [] ==>
      var best := preds[BestIndex(preds)].oracle;
      && -1 <= c < |pack|
      && (c == -1 <==> forall j :: 0 <= j < |pack| ==> OracleAt(cards, pack[j]) != best)
      && (c >= 0 ==> OracleAt(cards, pack[c]) == best && forall j :: 0 <= j < c ==> OracleAt(cards, pack[j]) != best)
  {
    if |pack| == 0 then -1
    else if preds == [] then random
    else
      var oracles := Oracles(pack, cards);
      assert forall j :: 0 <= j < |pack| ==> oracles[j] == OracleAt(cards, pack[j]);
      FindIndex(oracles, preds[BestIndex(preds)].oracle)
  }

  /** `prediction.slice(1).map(...)`: one choice per bot the answer covers. */
  function BotChoices(seats: seq<Seat>, cards: seq<Card>, prediction: PredictResponse, randoms: seq<int>): seq<int>
    requires |prediction| <= |seats| && |randoms| == |seats|
  {
    seq(if |prediction| == 0 then 0 else |prediction| - 1,
      k requires 0 <= k < |prediction| - 1 => BotChoice(seats[k + 1].pack, cards, prediction[k + 1], randoms[k + 1]))
  }

  /** `picks[i - 1]` for seat `i`: undefined beyond the answer. */
  function ChoiceFor(choices: seq<int>, i: int): Option<int> {
    if 1 <= i && i - 1 < |choices| then Some(choices[i - 1]) else None
  }

  // ------------------------------------------------------------ one table turn

  /** A seat records `card` at the front of its picks (or trashed pile) and its pack loses position `start`. */
  function Take(seat: Seat, trash: bool, card: Option<int>, start: Option<int>): Seat {
    if trash then seat.(trashed := [card] + seat.trashed, pack := JsSplice(seat.pack, start))
    else seat.(picks := [card] + seat.picks, pack := JsSplice(seat.pack, start))
  }

  /** Seat `i` after a pick or trash with predictions: the human takes `index`, bot `i` its choice. */
  function PredictedSeat(seats: seq<Seat>, trash: bool, index: int, choices: seq<int>, i: nat): Seat
    requires i < |seats|
  {
    var start := if i == 0 then Some(index) else ChoiceFor(choices, i);
    Take(seats[i], trash, JsAt(seats[i].pack, start), start)
  }

  function PredictedSeats(seats: seq<Seat>, trash: bool, index: int, choices: seq<int>): (r: seq<Seat>)
    ensures |r| == |seats|
  {
    seq(|seats|, i requires 0 <= i < |seats| => PredictedSeat(seats, trash, index, choices, i))
  }

  /**
   * Seat `i` after a pickrandom or trashrandom: the human takes `index`, a bot
   * the random position; a trashrandom bot records the position, not the card.
   */
  function RandomSeat(seats: seq<Seat>, trash: bool, index: int, randoms: seq<int>, i: nat): Seat
    requires i < |seats| && |randoms| == |seats|
  {
    if i == 0 then Take(seats[0], trash, JsAt(seats[0].pack, Some(index)), Some(index))
    else Take(seats[i], trash, if trash then Some(randoms[i]) else JsAt(seats[i].pack, Some(randoms[i])), Some(randoms[i]))
  }

  function RandomSeats(seats: seq<Seat>, trash: bool, index: int, randoms: seq<int>): (r: seq<Seat>)
    requires |randoms| == |seats|
    ensures |r| == |seats|
  {
    seq(|seats|, i requires 0 <= i < |seats| => RandomSeat(seats, trash, index, randoms, i))
  }

  /** Pass left (-1) in odd packs, right (+1) in even ones. */
  function Direction(pack: int): int {
    if pack % 2 == 0 then 1 else -1
  }

  /** The seat whose pack seat `j` receives: the loop sends seat `i`'s pack to seat `(i + direction + n) % n`. */
  function Source(j: int, dir: int, n: int): int
    requires n > 0
  {
    (j - dir + n) % n
  }

  /** Every seat keeps its piles and holds the pack of its neighbour against the passing direction. */
  function RotatedSeats(seats: seq<Seat>, pack: int): (r: seq<Seat>)
    ensures |r| == |seats|
  {
    seq(|seats|, j requires 0 <= j < |seats| =>
      seats[j].(pack := seats[Source(j, Direction(pack), |seats|)].pack))
  }

  /** Every one of the first `seats` seats was dealt a pack number `p` (0-based). */
  predicate Dealt(init: seq<seq<InitialPack>>, seats: nat, p: int) {
    |init| >= seats && 0 <= p && forall i :: 0 <= i < seats ==> p < |init[i]|
  }

  /** Every seat receives its dealt pack number `p` (0-based), or nothing without an InitialState. */
  function Reseeded(seats: seq<Seat>, initialState: Option<seq<seq<InitialPack>>>, p: int): (r: seq<Seat>)
    requires initialState.Some? ==> Dealt(initialState.value, |seats|, p)
    ensures |r| == |seats|
  {
    seq(|seats|, i requires 0 <= i < |seats| =>
      seats[i].(pack := if initialState.Some? then initialState.value[i][p].cards else []))
  }

  lemma ModUpToTwice(x: int, n: int)
    requires n > 0 && 0 <= x <= 2 * n
    ensures x % n == if x < n then x else if x < 2 * n then x - n else 0
  {
    if x == 2 * n {
      assert x == 2 * n + 0;
    } else if x >= n {
      assert x == (x - n) + n;
    }
  }

  /** The loop's target of seat `i` and the source of seat `j` are inverse to each other. */
  lemma RotationInverse(i: int, j: int, dir: int, n: int)
    requires n > 0 && 0 <= i < n && 0 <= j < n && (dir == 1 || dir == -1)
    ensures Source(j, dir, n) == i <==> (i + dir + n) % n == j
  {
    ModUpToTwice(j - dir + n, n);
    ModUpToTwice(i + dir + n, n);
  }

  lemma SourceInRange(j: int, dir: int, n: int)
    requires n > 0 && 0 <= j < n && (dir == 1 || dir == -1)
    ensures 0 <= Source(j, dir, n) < n
  {
    ModUpToTwice(j - dir + n, n);
  }

  // ------------------------------------------------------------ makePick

  /** `currentStep.action.includes('pick')`: the human's card also goes to a board. */
  predicate IsPickish(a: Action) {
    a == Pick || a == PickRandom
  }

  predicate CellExists(g: Grid, row: int, col: int) {
    0 <= row < |g| && 0 <= col < |g[row]|
  }

  /** Take the current step: an amount above 1 is decremented, otherwise the step is dropped. */
  function Consume(q: seq<DraftStep>): seq<DraftStep>
    requires q != []
  {
    var step := q[0];
    if step.amount.Some? && step.amount.value > 1 then q[0 := DraftStep(step.action, Some(step.amount.value - 1))]
    else q[1..]
  }

  /** What the table state needs for makePick not to throw: seats exist and every seat was dealt every pack seat 0 was. */
  predicate TableReady(s: PageState, d: Draft) {
    && |s.seats| > 0
    && (d.initialState.Some? ==>
          var init := d.initialState.value;
          && |init| >= |s.seats|
          && 1 <= s.pack <= |init[0]|
          && forall i :: 0 <= i < |s.seats| ==> |init[i]| >= |init[0]|)
  }

  /** The human's pick names a card of seat 0's pack and an existing cell of the chosen board. */
  predicate BoardArgs(s: PageState, arg: PickInput)
    requires |s.seats| > 0
  {
    && 0 <= arg.index < |s.seats[0].pack|
    && CellExists(if arg.location == Deck then s.mainboard else s.sideboard, arg.row, arg.col)
  }

  /** The arguments fit the state: the random positions lie in each pack, and a pick names a card and a cell. */
  predicate ArgsFit(s: PageState, arg: PickInput)
    requires |s.seats| > 0
  {
    && |arg.randoms| == |s.seats|
    && (forall i :: 0 <= i < |s.seats| ==>
          if |s.seats[i].pack| == 0 then arg.randoms[i] == 0 else 0 <= arg.randoms[i] < |s.seats[i].pack|)
    && (s.stepQueue != [] && IsPickish(s.stepQueue[0].action) ==> BoardArgs(s, arg))
  }

  /** `board[row][col].push(state.seats[0].pack[index])` for a pick action. */
  function PushBoard(s: PageState, arg: PickInput, action: Action): PageState
    requires |s.seats| > 0
    requires IsPickish(action) ==> BoardArgs(s, arg)
  {
    if !IsPickish(action) then s
    else if arg.location == Deck then s.(mainboard := Push(s.mainboard, arg.row, arg.col, s.seats[0].pack[arg.index]))
    else s.(sideboard := Push(s.sideboard, arg.row, arg.col, s.seats[0].pack[arg.index]))
  }

  /** The selections of a pick, trash, pickrandom or trashrandom step; without predictions a pick or trash moves nothing. */
  function Select(s: PageState, d: Draft, arg: PickInput, action: Action): PageState
    requires |s.seats| > 0 && |arg.randoms| == |s.seats|
    requires (action == Pick || action == Trash) && s.currentPredictions.Some? ==> |s.currentPredictions.value| <= |s.seats|
  {
    if action == Pick || action == Trash then
      if s.currentPredictions.Some? then
        var choices := BotChoices(s.seats, d.cards, s.currentPredictions.value, arg.randoms);
        s.(seats := PredictedSeats(s.seats, action == Trash, arg.index, choices))
      else s
    else s.(seats := RandomSeats(s.seats, action == TrashRandom, arg.index, arg.randoms))
  }

  /** getPredictions with the service's answer: a failed request or an empty answer sets predictError. */
  function Predict(s: PageState, packCards: seq<PackCard>, response: Option<PredictResponse>): PageState {
    match response
    case None => s.(predictError := true, predictionsLoading := false)
    case Some(json) =>
      if |json| == 0 then s.(currentPredictions := response, predictError := true, predictionsLoading := false)
      else s.(currentPredictions := response, ratings := ProcessPredictions(json, packCards),
              predictError := false, predictionsLoading := false)
  }

  /** A pass: every pack moves one seat, the pick number goes up and the pass is popped. */
  function PassOn(s: PageState): PageState
    requires s.stepQueue != []
  {
    s.(seats := RotatedSeats(s.seats, s.pack), pick := s.pick + 1, stepQueue := s.stepQueue[1..], loading := false)
  }

  /** Opening the next pack: every seat gets its next dealt pack, and seat 0's pack cards are rated. */
  function OpenNext(s: PageState, d: Draft, response: Option<PredictResponse>): PageState
    requires TableReady(s, d) && s.stepQueue != [] && !LastPack(s, d)
  {
    var turned := Turned(s, d);
    var predicted :=
      if |turned.seats[0].pack| > 0 then Predict(turned, PackCards(turned.seats[0].pack, d.cards), response)
      else turned;
    predicted.(loading := false)
  }

  /** The deal of the next pack, before its ratings are requested. */
  function Turned(s: PageState, d: Draft): (r: PageState)
    requires TableReady(s, d) && s.stepQueue != [] && !LastPack(s, d)
    ensures |r.seats| == |s.seats|
  {
    s.(pack := s.pack + 1, pick := 1, seats := Reseeded(s.seats, d.initialState, s.pack),
       stepQueue := s.stepQueue[1..], ratings := [])
  }

  /** Whether an endpack closes the last dealt pack. */
  predicate LastPack(s: PageState, d: Draft) {
    d.initialState.Some? && |d.initialState.value| > 0 && s.pack == |d.initialState.value[0]|
  }

  /** After the selections: pass the packs, open the next packs, finish, or stop. */
  function Advance(s: PageState, d: Draft, response: Option<PredictResponse>): (PageState, Outcome)
    requires TableReady(s, d)
  {
    if s.stepQueue == [] then (s.(loading := false), NoNextStep)
    else if s.stepQueue[0].action == Pass then (PassOn(s), Passed)
    else if s.stepQueue[0].action == EndPack then
      if LastPack(s, d) then (s.(loading := false), Finished)
      else (OpenNext(s, d, response), Opened)
    else (s.(loading := false), Continued)
  }

  /** What opening a pack keeps and changes. */
  lemma OpenNextFacts(s: PageState, d: Draft, response: Option<PredictResponse>)
    requires TableReady(s, d) && s.stepQueue != [] && !LastPack(s, d)
    ensures var r := OpenNext(s, d, response);
      && r.pack == s.pack + 1 && r.pick == 1 && r.stepQueue == s.stepQueue[1..] && !r.loading
      && r.seats == Reseeded(s.seats, d.initialState, s.pack)
      && r.mainboard == s.mainboard && r.sideboard == s.sideboard
  {
  }

  /** Passing and reseeding change packs only. */
  lemma SeatsKeepPiles(s: PageState, d: Draft)
    requires TableReady(s, d) && s.stepQueue != []
    ensures var r := RotatedSeats(s.seats, s.pack);
      forall i :: 0 <= i < |s.seats| ==> r[i].picks == s.seats[i].picks && r[i].trashed == s.seats[i].trashed
    ensures !LastPack(s, d) ==> var r := Reseeded(s.seats, d.initialState, s.pack);
      forall i :: 0 <= i < |s.seats| ==> r[i].picks == s.seats[i].picks && r[i].trashed == s.seats[i].trashed
  {
  }

  /** The table once the human's card is on its board (for a pick action) and the current step is consumed. */
  function Taken(s: PageState, arg: PickInput): PageState
    requires |s.seats| > 0 && s.stepQueue != []
    requires IsPickish(s.stepQueue[0].action) ==> BoardArgs(s, arg)
  {
    PushBoard(s, arg, s.stepQueue[0].action).(loading := true, ratings := [], stepQueue := Consume(s.stepQueue))
  }

  /** makePick: the whole table's move for one pick by the human. */
  function MakePickSpec(s: PageState, d: Draft, arg: PickInput): (PageState, Outcome)
    requires TableReady(s, d) && ArgsFit(s, arg)
  {
    if s.predictError || s.loading || s.predictionsLoading then (s, Blocked)
    else if s.stepQueue == [] then (s.(loading := true, ratings := []), Crashed)
    else
      var action := s.stepQueue[0].action;
      var s1 := Taken(s, arg);
      if action == EndPack || action == Pass then (s1.(loading := false), Skipped)
      else if (action == Pick || action == Trash) && s.currentPredictions.Some? && |s.currentPredictions.value| > |s.seats| then
        (s1, Crashed)
      else Advance(Select(s1, d, arg, action), d, arg.response)
  }

  // ------------------------------------------------------------ what a pick does

  /** A seat taking position `i` of its pack records that card first in its pile and its pack loses exactly that card. */
  lemma TakeMovesCard(seat: Seat, trash: bool, i: int)
    requires 0 <= i < |seat.pack|
    ensures var t := Take(seat, trash, JsAt(seat.pack, Some(i)), Some(i));
      && (trash ==> t.trashed == [Some(seat.pack[i])] + seat.trashed && t.picks == seat.picks)
      && (!trash ==> t.picks == [Some(seat.pack[i])] + seat.picks && t.trashed == seat.trashed)
      && multiset(t.pack) + multiset{seat.pack[i]} == multiset(seat.pack)
  {
    SpliceInRange(seat.pack, i);
  }

  /** A bot whose choice is a position of its pack takes the first card with the best-rated oracle, and only it. */
  lemma BotTakesItsChoice(seats: seq<Seat>, cards: seq<Card>, prediction: PredictResponse, randoms: seq<int>,
                          trash: bool, index: int, i: nat)
    requires |prediction| <= |seats| && |randoms| == |seats| && 1 <= i < |prediction|
    requires |seats[i].pack| > 0 && prediction[i] != []
    requires 0 <= BotChoices(seats, cards, prediction, randoms)[i - 1]
    ensures var c := BotChoices(seats, cards, prediction, randoms)[i - 1];
      var pack := seats[i].pack;
      var t := PredictedSeat(seats, trash, index, BotChoices(seats, cards, prediction, randoms), i);
      && c < |pack|
      && OracleAt(cards, pack[c]) == prediction[i][BestIndex(prediction[i])].oracle
      && (!trash ==> t.picks == [Some(pack[c])] + seats[i].picks)
      && (trash ==> t.trashed == [Some(pack[c])] + seats[i].trashed)
      && multiset(t.pack) + multiset{pack[c]} == multiset(pack)
  {
    var choices := BotChoices(seats, cards, prediction, randoms);
    var c := choices[i - 1];
    assert c == BotChoice(seats[i].pack, cards, prediction[i], randoms[i]);
    TakeMovesCard(seats[i], trash, c);
  }

  /**
   * When the best-rated oracle is not in a bot's non-empty pack, findIndex
   * gives -1: the bot records `undefined` and `splice(-1, 1)` throws away the
   * last card of its pack.
   */
  lemma BotMissDropsLastCard(seats: seq<Seat>, cards: seq<Card>, prediction: PredictResponse, randoms: seq<int>,
                             trash: bool, index: int, i: nat)
    requires |prediction| <= |seats| && |randoms| == |seats| && 1 <= i < |prediction|
    requires |seats[i].pack| > 0 && prediction[i] != []
    requires forall j :: 0 <= j < |seats[i].pack| ==>
      OracleAt(cards, seats[i].pack[j]) != prediction[i][BestIndex(prediction[i])].oracle
    ensures var t := PredictedSeat(seats, trash, index, BotChoices(seats, cards, prediction, randoms), i);
      var pack := seats[i].pack;
      && (!trash ==> t.picks == [None] + seats[i].picks)
      && (trash ==> t.trashed == [None] + seats[i].trashed)
      && t.pack == pack[..|pack| - 1]
  {
    var choices := BotChoices(seats, cards, prediction, randoms);
    assert choices[i - 1] == BotChoice(seats[i].pack, cards, prediction[i], randoms[i]);
    SpliceMinusOne(seats[i].pack);
  }

  /** A bot beyond the end of the answer has no choice: it records `undefined` and loses the first card of its pack. */
  lemma UnansweredBotLosesFirstCard(seats: seq<Seat>, cards: seq<Card>, prediction: PredictResponse, randoms: seq<int>,
                                    trash: bool, index: int, i: nat)
    requires |prediction| <= |seats| && |randoms| == |seats| && 1 <= i < |seats| && i >= |prediction|
    requires |seats[i].pack| > 0
    ensures var t := PredictedSeat(seats, trash, index, BotChoices(seats, cards, prediction, randoms), i);
      var pack := seats[i].pack;
      && (!trash ==> t.picks == [None] + seats[i].picks)
      && (trash ==> t.trashed == [None] + seats[i].trashed)
      && t.pack == pack[1..]
  {
    var choices := BotChoices(seats, cards, prediction, randoms);
    assert ChoiceFor(choices, i) == None;
    SpliceUndefined(seats[i].pack);
  }

  /** At a trashrandom step a bot's trashed pile records the random position, not the card. */
  lemma TrashRandomRecordsPosition(seats: seq<Seat>, index: int, randoms: seq<int>, i: nat)
    requires |randoms| == |seats| && 1 <= i < |seats| && 0 <= randoms[i] < |seats[i].pack|
    ensures var t := RandomSeats(seats, true, index, randoms)[i];
      && t.trashed == [Some(randoms[i])] + seats[i].trashed
      && t.picks == seats[i].picks
      && multiset(t.pack) + multiset{seats[i].pack[randoms[i]]} == multiset(seats[i].pack)
  {
    SpliceInRange(seats[i].pack, randoms[i]);
  }

  // ------------------------------------------------------------ passing

  /** Every pack lands at the seat next to it in the passing direction: no pack is lost or doubled. */
  lemma RotationDeliversEveryPack(seats: seq<Seat>, pack: int, i: nat)
    requires i < |seats|
    ensures var n := |seats|;
      var j := (i + Direction(pack) + n) % n;
      0 <= j < n && RotatedSeats(seats, pack)[j].pack == seats[i].pack
  {
    var n := |seats|;
    var dir := Direction(pack);
    var j := (i + dir + n) % n;
    ModUpToTwice(i + dir + n, n);
    RotationInverse(i, j, dir, n);
  }

  /**
   * The page's pass agrees with the replay's: after a pass in pack `pack`
   * (1-based), seat `j` holds the pack of seat `j + OffsetAfterPass(0, pack - 1, n)`,
   * the shift getDrafterState applies to its reading offset.
   */
  lemma RotationAgreesWithReplay(seats: seq<Seat>, pack: int, j: nat)
    requires j < |seats|
    ensures var n := |seats|;
      RotatedSeats(seats, pack)[j].pack == seats[(j + DrafterReplay.OffsetAfterPass(0, pack - 1, n)) % n].pack
  {
    var n := |seats|;
    var delta := DrafterReplay.OffsetAfterPass(0, pack - 1, n);
    ModUpToTwice(j - Direction(pack) + n, n);
    if pack % 2 == 0 {
      assert (pack - 1) % 2 != 0;
      ModUpToTwice(n - 1, n);
      assert delta == n - 1;
    } else {
      assert (pack - 1) % 2 == 0;
      ModUpToTwice(1, n);
      assert delta == 1 % n;
    }
    ModUpToTwice(j + delta, n);
  }

  // ------------------------------------------------------------ progress

  /** The picks a step still asks for: its amount when above 1, else 1. */
  function StepWeight(step: DraftStep): nat {
    if step.amount.Some? && step.amount.value > 1 then step.amount.value else 1
  }

  function Weight(q: seq<DraftStep>): nat {
    if q == [] then 0 else StepWeight(q[0]) + Weight(q[1..])
  }

  /** Consuming the current step uses up exactly one pick of the queue. */
  lemma ConsumeLowersWeight(q: seq<DraftStep>)
    requires q != []
    ensures Weight(Consume(q)) == Weight(q) - 1
  {
    if q[0].amount.Some? && q[0].amount.value > 1 {
      assert Consume(q)[1..] == q[1..];
    }
  }

  /** Consuming changes only the head: it keeps its action with one pick less, or it is gone; the rest of the queue is untouched. */
  lemma ConsumeKeepsTail(q: seq<DraftStep>)
    requires q != []
    ensures var r := Consume(q);
      && (q[0].amount.Some? && q[0].amount.value > 1 ==>
            r[1..] == q[1..] && r[0].action == q[0].action && r[0].amount == Some(q[0].amount.value - 1))
      && (!(q[0].amount.Some? && q[0].amount.value > 1) ==> r == q[1..])
  {
  }

  /**
   * Without cached predictions a pick or trash takes no card into a pile:
   * piles stay, and packs stay unless the table passes or opens. The board
   * push of a pick still happens, so the human's card is then both on the
   * board and still in seat 0's pack.
   */
  lemma NoPredictionsOnlyBoardChanges(s: PageState, d: Draft, arg: PickInput)
    requires TableReady(s, d) && ArgsFit(s, arg)
    requires !(s.predictError || s.loading || s.predictionsLoading) && s.stepQueue != []
    requires (s.stepQueue[0].action == Pick || s.stepQueue[0].action == Trash) && s.currentPredictions.None?
    ensures var (r, outcome) := MakePickSpec(s, d, arg);
      && |r.seats| == |s.seats|
      && (forall i :: 0 <= i < |s.seats| ==> r.seats[i].picks == s.seats[i].picks && r.seats[i].trashed == s.seats[i].trashed)
      && (outcome == Continued || outcome == NoNextStep ==> r.seats == s.seats)
      && r.mainboard == PushBoard(s, arg, s.stepQueue[0].action).mainboard
      && r.sideboard == PushBoard(s, arg, s.stepQueue[0].action).sideboard
    ensures var (r, outcome) := MakePickSpec(s, d, arg);
      s.stepQueue[0].action == Pick && (outcome == Continued || outcome == NoNextStep) ==>
        && s.seats[0].pack[arg.index] in r.seats[0].pack
        && var g := if arg.location == Deck then r.mainboard else r.sideboard;
           g[arg.row][arg.col] == (if arg.location == Deck then s.mainboard else s.sideboard)[arg.row][arg.col] + [s.seats[0].pack[arg.index]]
  {
    var action := s.stepQueue[0].action;
    var s1 := Taken(s, arg);
    assert Select(s1, d, arg, action) == s1;
    AdvanceKeepsPiles(s1, d, arg.response);
  }

  /** A pass after the pick: pick number up by one, the pass popped, the pack number kept. */
  lemma PassAdvancesPick(s: PageState, d: Draft, arg: PickInput)
    requires TableReady(s, d) && ArgsFit(s, arg)
    ensures var (r, outcome) := MakePickSpec(s, d, arg);
      outcome == Passed ==>
        && s.stepQueue != []
        && var q := Consume(s.stepQueue);
        && q != [] && q[0].action == Pass
        && r.stepQueue == q[1..]
        && r.pick == s.pick + 1 && r.pack == s.pack
  {
  }

  /** Passing, opening a pack and the other endings keep every pile and both boards; the seat count is kept. */
  lemma AdvanceKeepsPiles(s: PageState, d: Draft, response: Option<PredictResponse>)
    requires TableReady(s, d)
    ensures var r := Advance(s, d, response).0;
      && |r.seats| == |s.seats|
      && r.mainboard == s.mainboard && r.sideboard == s.sideboard
      && forall i :: 0 <= i < |s.seats| ==> r.seats[i].picks == s.seats[i].picks && r.seats[i].trashed == s.seats[i].trashed
  {
    if s.stepQueue != [] {
      SeatsKeepPiles(s, d);
      if s.stepQueue[0].action == EndPack && !LastPack(s, d) {
        OpenNextFacts(s, d, response);
      }
    }
  }

  /** Only a set status flag blocks a pick, and a blocked pick changes nothing; any other call uses up one pick of the queue at least. */
  lemma MakePickProgress(s: PageState, d: Draft, arg: PickInput)
    requires TableReady(s, d) && ArgsFit(s, arg)
    ensures var (r, outcome) := MakePickSpec(s, d, arg);
      && (outcome == Blocked <==> s.predictError || s.loading || s.predictionsLoading)
      && (outcome == Blocked ==> r == s)
      && (outcome != Blocked && s.stepQueue != [] ==> Weight(r.stepQueue) < Weight(s.stepQueue))
  {
    if !(s.predictError || s.loading || s.predictionsLoading) && s.stepQueue != [] {
      ConsumeLowersWeight(s.stepQueue);
      var action := s.stepQueue[0].action;
      var s1 := Taken(s, arg);
      assert s1.stepQueue == Consume(s.stepQueue);
      if !(action == EndPack || action == Pass) && !((action == Pick || action == Trash) && s.currentPredictions.Some? && |s.currentPredictions.value| > |s.seats|) {
        var s2 := Select(s1, d, arg, action);
        assert s2.stepQueue == s1.stepQueue;
        AdvanceNeverGrowsQueue(s2, d, arg.response);
      }
    }
  }

  /** A human pick puts the same card at the front of seat 0's picks and at the end of the chosen board cell. */
  lemma HumanPickRecorded(s: PageState, d: Draft, arg: PickInput)
    requires TableReady(s, d) && ArgsFit(s, arg)
    requires !(s.predictError || s.loading || s.predictionsLoading) && s.stepQueue != []
    requires s.stepQueue[0].action == PickRandom
      || (s.stepQueue[0].action == Pick && s.currentPredictions.Some? && |s.currentPredictions.value| <= |s.seats|)
    ensures var r := MakePickSpec(s, d, arg).0;
      var card := s.seats[0].pack[arg.index];
      var board := if arg.location == Deck then r.mainboard else r.sideboard;
      var before := if arg.location == Deck then s.mainboard else s.sideboard;
      && |r.seats| > 0
      && r.seats[0].picks == [Some(card)] + s.seats[0].picks
      && CellExists(board, arg.row, arg.col)
      && board[arg.row][arg.col] == before[arg.row][arg.col] + [card]
  {
    var action := s.stepQueue[0].action;
    var s1 := Taken(s, arg);
    var s2 := Select(s1, d, arg, action);
    AdvanceKeepsPiles(s2, d, arg.response);
    TakeMovesCard(s.seats[0], false, arg.index);
  }

  /** Opening the next pack: pack number up, pick back to 1, every seat holding its next dealt pack. */
  lemma OpeningDealsNextPacks(s: PageState, d: Draft, arg: PickInput)
    requires TableReady(s, d) && ArgsFit(s, arg)
    ensures var (r, outcome) := MakePickSpec(s, d, arg);
      outcome == Opened ==>
        && r.pack == s.pack + 1 && r.pick == 1 && |r.seats| == |s.seats|
        && forall i :: 0 <= i < |s.seats| ==>
             r.seats[i].pack == if d.initialState.Some? then d.initialState.value[i][s.pack].cards else []
  {
    if !(s.predictError || s.loading || s.predictionsLoading) && s.stepQueue != [] {
      var action := s.stepQueue[0].action;
      var s1 := Taken(s, arg);
      if !(action == EndPack || action == Pass) && !((action == Pick || action == Trash) && s.currentPredictions.Some? && |s.currentPredictions.value| > |s.seats|) {
        var s2 := Select(s1, d, arg, action);
        assert s2.pack == s.pack && |s2.seats| == |s.seats|;
        if s2.stepQueue != [] && s2.stepQueue[0].action == EndPack && !LastPack(s2, d) {
          OpenNextFacts(s2, d, arg.response);
        }
      }
    }
  }

  /** The draft finishes only after the last dealt pack, and the closing endpack stays queued. */
  lemma FinishAfterLastPack(s: PageState, d: Draft, arg: PickInput)
    requires TableReady(s, d) && ArgsFit(s, arg)
    ensures var (r, outcome) := MakePickSpec(s, d, arg);
      outcome == Finished ==>
        && d.initialState.Some? && s.pack == |d.initialState.value[0]|
        && r.stepQueue != [] && r.stepQueue[0].action == EndPack
        && r.pack == s.pack && !r.loading
  {
  }

  /** makePick keeps the table ready for the next call. */
  lemma MakePickKeepsTableReady(s: PageState, d: Draft, arg: PickInput)
    requires TableReady(s, d) && ArgsFit(s, arg)
    ensures TableReady(MakePickSpec(s, d, arg).0, d)
  {
    if !(s.predictError || s.loading || s.predictionsLoading) && s.stepQueue != [] {
      var action := s.stepQueue[0].action;
      var s1 := Taken(s, arg);
      assert TableReady(s1, d);
      if !(action == EndPack || action == Pass) && !((action == Pick || action == Trash) && s.currentPredictions.Some? && |s.currentPredictions.value| > |s.seats|) {
        var s2 := Select(s1, d, arg, action);
        assert TableReady(s2, d);
        AdvanceKeepsTableReady(s2, d, arg.response);
      }
    }
  }

  /** Advancing pops at most the next step. */
  lemma AdvanceNeverGrowsQueue(s: PageState, d: Draft, response: Option<PredictResponse>)
    requires TableReady(s, d)
    ensures Weight(Advance(s, d, response).0.stepQueue) <= Weight(s.stepQueue)
  {
    if s.stepQueue != [] {
      assert Weight(s.stepQueue[1..]) <= Weight(s.stepQueue);
      if s.stepQueue[0].action == EndPack && !LastPack(s, d) {
        OpenNextFacts(s, d, response);
      }
    }
  }

  /** Passing, opening and the other endings keep the table ready. */
  lemma AdvanceKeepsTableReady(s: PageState, d: Draft, response: Option<PredictResponse>)
    requires TableReady(s, d)
    ensures TableReady(Advance(s, d, response).0, d)
  {
    if s.stepQueue != [] && s.stepQueue[0].action == EndPack && !LastPack(s, d) {
      OpenNextFacts(s, d, response);
    }
  }

  // ------------------------------------------------------------ packTitle

  /** `${amount}`: the number, or "null" for a missing amount. */
  function AmountText(amount: Option<nat>): string {
    if amount.Some? then NatToString(amount.value) else "null"
  }

  /** The `s` of "cards": only for an amount above 1. */
  function Plural(amount: Option<nat>): string {
    if amount.Some? && amount.value > 1 then "s" else ""
  }

  /** packTitle: the heading above the pack, from the loading flag and the next step. */
  function PackTitle(s: PageState): string
    requires s.loading || s.stepQueue != []
  {
    if s.loading then
      if |s.stepQueue| <= 1 then "Finishing up draft..." else "Waiting for next pack..."
    else
      var next := s.stepQueue[0];
      var head := "Pack " + IntToString(s.pack) + " Pick " + IntToString(s.pick) + ": ";
      match next.action
      case Pick => head + "Pick " + AmountText(next.amount) + " card" + Plural(next.amount)
      case Trash => head + "Trash " + AmountText(next.amount) + " card" + Plural(next.amount)
      case EndPack => "Waiting for next pack to open..."
      case PickRandom => "Picking random selection..."
      case TrashRandom => "Trashing random selection..."
      case Pass => ""
  }

  /** A pick or trash heading ends in "cards" exactly when the step asks for more than one card. */
  lemma PackTitlePlural(s: PageState)
    requires !s.loading && s.stepQueue != [] && (s.stepQueue[0].action == Pick || s.stepQueue[0].action == Trash)
    ensures var t := PackTitle(s);
      var amount := s.stepQueue[0].amount;
      |t| > 0 && (t[|t| - 1] == 's' <==> amount.Some? && amount.value > 1)
  {
    var next := s.stepQueue[0];
    var head := "Pack " + IntToString(s.pack) + " Pick " + IntToString(s.pick) + ": ";
    var verb := if next.action == Pick then "Pick " else "Trash ";
    var t := head + verb + AmountText(next.amount) + " card" + Plural(next.amount);
    assert PackTitle(s) == t;
    if next.amount.Some? && next.amount.value > 1 {
      assert t[|t| - 1] == 's';
    } else {
      assert t[|t| - 1] == 'd';
    }
  }

  /** Without loading, the heading is empty exactly when the next step is a pass. */
  lemma PackTitleEmptyOnlyAtPass(s: PageState)
    requires !s.loading && s.stepQueue != []
    ensures PackTitle(s) == "" <==> s.stepQueue[0].action == Pass
  {
    var next := s.stepQueue[0];
    if next.action == Pick || next.action == Trash {
      PackTitlePlural(s);
    }
  }

  // ------------------------------------------------------------ the page

  /** The selection loop of a pick or trash with predictions: seat 0 first, then every bot in seat order. */
  method TakeSelections(seats: seq<Seat>, trash: bool, index: int, choices: seq<int>) returns (r: seq<Seat>)
    requires |seats| > 0
    ensures r == PredictedSeats(seats, trash, index, choices)
  {
    r := seats[0 := Take(seats[0], trash, JsAt(seats[0].pack, Some(index)), Some(index))];
    var i := 1;
    while i < |seats|
      invariant 1 <= i <= |seats| && |r| == |seats|
      invariant forall j :: 0 <= j < i ==> r[j] == PredictedSeat(seats, trash, index, choices, j)
      invariant forall j :: i <= j < |seats| ==> r[j] == seats[j]
    {
      var pick := ChoiceFor(choices, i);
      r := r[i := Take(r[i], trash, JsAt(seats[i].pack, pick), pick)];
      i := i + 1;
    }
  }

  /** The selection loop of a pickrandom or trashrandom step; seat 0's pack is spliced after the bots'. */
  method TakeRandom(seats: seq<Seat>, trash: bool, index: int, randoms: seq<int>) returns (r: seq<Seat>)
    requires |seats| > 0 && |randoms| == |seats|
    ensures r == RandomSeats(seats, trash, index, randoms)
  {
    var card := JsAt(seats[0].pack, Some(index));
    r := if trash then seats[0 := seats[0].(trashed := [card] + seats[0].trashed)]
         else seats[0 := seats[0].(picks := [card] + seats[0].picks)];
    var i := 1;
    while i < |seats|
      invariant 1 <= i <= |seats| && |r| == |seats|
      invariant forall j :: 1 <= j < i ==> r[j] == RandomSeat(seats, trash, index, randoms, j)
      invariant forall j :: i <= j < |seats| ==> r[j] == seats[j]
      invariant r[0].pack == seats[0].pack && r[0] == RandomSeat(seats, trash, index, randoms, 0).(pack := seats[0].pack)
    {
      var randomIndex := randoms[i];
      var taken := if trash then Some(randomIndex) else JsAt(seats[i].pack, Some(randomIndex));
      r := r[i := Take(r[i], trash, taken, Some(randomIndex))];
      i := i + 1;
    }
    r := r[0 := r[0].(pack := JsSplice(r[0].pack, Some(index)))];
  }

  /** The passing loop: seat `i`'s pack goes to seat `(i + direction + n) % n`. */
  method PassPacks(seats: seq<Seat>, pack: int) returns (r: seq<Seat>)
    requires |seats| > 0
    ensures r == RotatedSeats(seats, pack)
  {
    var n := |seats|;
    var direction := Direction(pack);
    var packs := seq(n, i requires 0 <= i < n => seats[i].pack);
    r := seats;
    var i := 0;
    while i < n
      invariant 0 <= i <= n && |r| == n
      invariant forall j :: 0 <= j < n ==>
        r[j] == seats[j].(pack := if Source(j, direction, n) < i then packs[Source(j, direction, n)] else seats[j].pack)
    {
      var target := (i + direction + n) % n;
      ModUpToTwice(i + direction + n, n);
      forall j | 0 <= j < n
        ensures Source(j, direction, n) == i <==> j == target
      {
        RotationInverse(i, j, direction, n);
      }
      r := r[target := r[target].(pack := packs[i])];
      i := i + 1;
    }
    forall j | 0 <= j < n
      ensures r[j] == RotatedSeats(seats, pack)[j]
    {
      SourceInRange(j, direction, n);
    }
  }

  /** The opening loop: every seat receives its dealt pack `p` (0-based), or nothing. */
  method OpenNextPacks(seats: seq<Seat>, initialState: Option<seq<seq<InitialPack>>>, p: int) returns (r: seq<Seat>)
    requires initialState.Some? ==> Dealt(initialState.value, |seats|, p)
    ensures r == Reseeded(seats, initialState, p)
  {
    r := seats;
    var i := 0;
    while i < |seats|
      invariant 0 <= i <= |seats| && |r| == |seats|
      invariant forall j :: 0 <= j < i ==> r[j] == Reseeded(seats, initialState, p)[j]
      invariant forall j :: i <= j < |seats| ==> r[j] == seats[j]
    {
      r := r[i := r[i].(pack := if initialState.Some? then initialState.value[i][p].cards else [])];
      i := i + 1;
    }
  }

  /** The draft page: its persisted draft state, the two boards, the ratings shown and the status flags. */
  class DraftPage {
    const cards: seq<Card>
    const initialState: Option<seq<seq<InitialPack>>>
    var seats: seq<Seat>
    var stepQueue: seq<DraftStep>
    var pack: int
    var pick: int
    var mainboard: Grid
    var sideboard: Grid
    var ratings: seq<real>
    var currentPredictions: Option<PredictResponse>
    var loading: bool
    var predictionsLoading: bool
    var predictError: bool

    function Snapshot(): PageState
      reads this
    {
      PageState(seats, stepQueue, pack, pick, mainboard, sideboard, ratings, currentPredictions,
                loading, predictionsLoading, predictError)
    }

    function Info(): Draft {
      Draft(cards, initialState)
    }

    /** A fresh page: the page's initial state, a 2 x 8 deck, a 1 x 8 sideboard, no ratings, no flags set. */
    constructor (cards: seq<Card>, seatCount: nat, initialState: Option<seq<seq<InitialPack>>>)
      requires Buildable(seatCount, initialState)
      ensures this.cards == cards && this.initialState == initialState
      ensures Snapshot() == PageState(InitialSeats(seatCount, initialState), PageQueue(SeatZeroPacks(initialState)),
        1, 1, EmptyGrid(2, 8), EmptyGrid(1, 8), [], None, false, false, false)
    {
      this.cards := cards;
      this.initialState := initialState;
      var state := PageInitialState(seatCount, initialState);
      var deck := SetupPicks(2, 8);
      var side := SetupPicks(1, 8);
      seats := state.seats;
      stepQueue := state.stepQueue;
      pack := state.pack;
      pick := state.pick;
      mainboard := deck;
      sideboard := side;
      ratings := [];
      currentPredictions := None;
      loading := false;
      predictionsLoading := false;
      predictError := false;
    }

    /** getPredictions with the service's answer as input. */
    method GetPredictions(packCards: seq<PackCard>, response: Option<PredictResponse>)
      modifies this
      ensures Snapshot() == Predict(old(Snapshot()), packCards, response)
    {
      predictionsLoading := true;
      predictError := false;
      match response {
        case None =>
          predictError := true;
        case Some(json) =>
          currentPredictions := response;
          if |json| == 0 {
            predictError := true;
          } else {
            ratings := ProcessPredictions(json, packCards);
          }
      }
      predictionsLoading := false;
    }

    /** makePick: the human takes card `index` of their pack into (row, col) of `location`, and the table moves on. */
    method MakePick(index: int, location: Location, row: int, col: int, randoms: seq<int>,
                    response: Option<PredictResponse>) returns (outcome: Outcome)
      requires TableReady(Snapshot(), Info()) && ArgsFit(Snapshot(), PickInput(index, location, row, col, randoms, response))
      modifies this
      ensures (Snapshot(), outcome) == MakePickSpec(old(Snapshot()), Info(), PickInput(index, location, row, col, randoms, response))
    {
      var arg := PickInput(index, location, row, col, randoms, response);
      if predictError || loading || predictionsLoading {
        return Blocked;
      }
      if stepQueue == [] {
        loading := true;
        ratings := [];
        return Crashed;
      }
      var action := stepQueue[0].action;
      var tooMany := (action == Pick || action == Trash) && currentPredictions.Some? && |currentPredictions.value| > |seats|;
      TakeStep(arg);
      if action == EndPack || action == Pass {
        loading := false;
        return Skipped;
      }
      if tooMany {
        return Crashed;
      }
      SelectCards(action, arg);
      outcome := NextStep(response);
    }

    /** The board push for a pick action, then the current step is consumed. */
    method TakeStep(arg: PickInput)
      requires |seats| > 0 && stepQueue != []
      requires IsPickish(stepQueue[0].action) ==> BoardArgs(Snapshot(), arg)
      modifies this
      ensures Snapshot() == Taken(old(Snapshot()), arg)
    {
      var currentStep := stepQueue[0];
      loading := true;
      ratings := [];
      if IsPickish(currentStep.action) {
        if arg.location == Deck {
          mainboard := Push(mainboard, arg.row, arg.col, seats[0].pack[arg.index]);
        } else {
          sideboard := Push(sideboard, arg.row, arg.col, seats[0].pack[arg.index]);
        }
      }
      if currentStep.amount.Some? && currentStep.amount.value > 1 {
        stepQueue := stepQueue[0 := DraftStep(currentStep.action, Some(currentStep.amount.value - 1))];
      } else {
        stepQueue := stepQueue[1..];
      }
    }

    /** The selections of every seat, with the predictions in hand for a pick or trash. */
    method SelectCards(action: Action, arg: PickInput)
      requires |seats| > 0 && |arg.randoms| == |seats|
      requires (action == Pick || action == Trash) && currentPredictions.Some? ==> |currentPredictions.value| <= |seats|
      modifies this
      ensures Snapshot() == Select(old(Snapshot()), Info(), arg, action)
    {
      if action == Pick || action == Trash {
        if currentPredictions.Some? {
          var choices := BotChoices(seats, cards, currentPredictions.value, arg.randoms);
          seats := TakeSelections(seats, action == Trash, arg.index, choices);
        }
      } else {
        seats := TakeRandom(seats, action == TrashRandom, arg.index, arg.randoms);
      }
    }

    /** The end of makePick: act on the step that follows the pick. */
    method NextStep(response: Option<PredictResponse>) returns (outcome: Outcome)
      requires TableReady(Snapshot(), Info())
      modifies this
      ensures (Snapshot(), outcome) == Advance(old(Snapshot()), Info(), response)
    {
      if stepQueue == [] {
        loading := false;
        return NoNextStep;
      }
      var nextStep := stepQueue[0];
      if nextStep.action == Pass {
        PassInPlace();
        return Passed;
      }
      if nextStep.action == EndPack {
        if initialState.Some? && pack == |initialState.value[0]| {
          loading := false;
          return Finished;
        }
        OpenInPlace(response);
        return Opened;
      }
      loading := false;
      return Continued;
    }

    /** The passing loop, then the pick number and the queue. */
    method PassInPlace()
      requires |seats| > 0 && stepQueue != []
      modifies this
      ensures Snapshot() == PassOn(old(Snapshot()))
    {
      seats := PassPacks(seats, pack);
      pick := pick + 1;
      stepQueue := stepQueue[1..];
      loading := false;
    }

    /** The opening loop, then the ratings request for seat 0's new pack. */
    method OpenInPlace(response: Option<PredictResponse>)
      requires TableReady(Snapshot(), Info()) && stepQueue != [] && !LastPack(Snapshot(), Info())
      modifies this
      ensures Snapshot() == OpenNext(old(Snapshot()), Info(), response)
    {
      DealInPlace();
      if |seats[0].pack| > 0 {
        GetPredictions(PackCards(seats[0].pack, cards), response);
      }
      loading := false;
    }

    /** The opening loop, then the pack and pick numbers, the queue and the ratings. */
    method DealInPlace()
      requires TableReady(Snapshot(), Info()) && stepQueue != [] && !LastPack(Snapshot(), Info())
      modifies this
      ensures Snapshot() == Turned(old(Snapshot()), Info())
    {
      seats := OpenNextPacks(seats, initialState, pack);
      pack := pack + 1;
      pick := 1;
      stepQueue := stepQueue[1..];
      ratings := [];
    }
  }
}
