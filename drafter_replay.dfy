/**
 * getDrafterState (src/util/draftutil.ts): replay a recorded draft from the
 * dealt packs and every seat's pick and trash order, up to a given pick of
 * one seat, passing the packs around the table through an `offset`.
 */
module DrafterReplay {
  import opened Wrappers
  import opened DraftSteps
  import opened DeckGrid

  /** The recorded part of a draft seat: pick and trash orders (possibly missing) and its boards. */
  datatype DraftSeat = DraftSeat(pickorder: Option<seq<int>>, trashorder: Option<seq<int>>, mainboard: Grid, sideboard: Grid)

  /** An entry of `picksList`; `cardIndex` is None when the queue was already empty. */
  datatype PickEntry = PickEntry(action: Action, cardIndex: Option<int>, index: int)

  /** A seat's replay state. The optional fields are unset until the first step. */
  datatype DrafterState = DrafterState(
    picked: seq<int>,
    trashed: seq<int>,
    pickQueue: seq<int>,
    trashQueue: seq<int>,
    cardsPicked: seq<int>,
    cardsInPack: seq<int>,
    picksList: map<int, seq<PickEntry>>,
    pick: Option<int>,
    pack: Option<int>,
    selection: Option<int>,
    step: Option<FlatStep>)

  /** What getDrafterState returns when the draft has no InitialState. */
  const EmptyState := DrafterState([], [], [], [], [], [], map[], None, None, None, None)

  predicate IsPickAction(a: Action) { a == Pick || a == PickRandom }
  predicate IsTrashAction(a: Action) { a == Trash || a == TrashRandom }

  /** `array.pop()`: the last element (None on an empty array) and what remains. */
  function Pop(q: seq<int>): (r: (Option<int>, seq<int>))
    ensures q == [] ==> r == (None, [])
    ensures q != [] ==> r.0 == Some(q[|q| - 1]) && r.1 + [q[|q| - 1]] == q
  {
    if q == [] then (None, []) else (Some(q[|q| - 1]), q[..|q| - 1])
  }

  /** `x || -1`: undefined and 0 both become -1. */
  function OrMinusOne(x: Option<int>): (r: int)
    ensures (x == None || x == Some(0)) <==> r == -1 && x != Some(-1)
    ensures x.Some? && x.value != 0 ==> r == x.value
  {
    if x.Some? && x.value != 0 then x.value else -1
  }

  /** `cards.filter((card) => card !== x)`; no card equals `undefined`. */
  function Without(cards: seq<int>, x: Option<int>): (r: seq<int>)
    ensures |r| <= |cards|
  {
    if x.None? || cards == [] then cards
    else Without(cards[..|cards| - 1], x) + (if cards[|cards| - 1] == x.value then [] else [cards[|cards| - 1]])
  }

  /** The filtered pack holds every other card of the pack, and never the selected one. */
  lemma {:induction false} WithoutMembers(cards: seq<int>, x: Option<int>, y: int)
    ensures y in Without(cards, x) <==> y in cards && x != Some(y)
    ensures x.Some? ==> multiset(Without(cards, x)) == multiset(cards)[x.value := 0]
  {
    if x.Some? && cards != [] {
      var n := |cards| - 1;
      WithoutMembers(cards[..n], x, y);
      assert cards == cards[..n] + [cards[n]];
    }
  }

  /** The pack's `this.seat.cardsPicked.includes` search: the first card of the pack the seat ended up with. */
  function FirstKept(pack: seq<int>, cardsPicked: seq<int>): (r: Option<int>)
    ensures r.Some? ==> r.value in pack && r.value in cardsPicked
    ensures r.Some? ==> exists k :: 0 <= k < |pack| && pack[k] == r.value && forall j :: 0 <= j < k ==> pack[j] !in cardsPicked
    ensures r.None? ==> forall c :: c in pack ==> c !in cardsPicked
  {
    if pack == [] then None
    else if pack[0] in cardsPicked then Some(pack[0])
    else FirstKept(pack[1..], cardsPicked)
  }

  /** The selection after a pop: a recorded -1 is replaced by the first pack card the seat kept, if any. */
  function ResolvePick(popped: Option<int>, pack: seq<int>, cardsPicked: seq<int>): Option<int> {
    if popped == Some(-1) && FirstKept(pack, cardsPicked).Some? then FirstKept(pack, cardsPicked) else popped
  }

  /** `packsWithCards[slot]`; the replay only reads slots that exist. */
  function PackAt(packs: seq<seq<int>>, slot: int): seq<int> {
    if 0 <= slot < |packs| then packs[slot] else []
  }

  /** `step.pick`: endpack markers have none. */
  function StepPick(step: FlatStep): Option<int> {
    if step.Unit? then Some(step.pick) else None
  }

  /** What one seat does at one step: it takes from pack `slot` on a pick or trash. */
  function SeatTurn(seat: DrafterState, packs: seq<seq<int>>, slot: int, step: FlatStep): (r: (DrafterState, seq<seq<int>>))
    ensures |r.1| == |packs|
  {
    var seat1 := seat.(pick := StepPick(step), pack := Some(step.pack));
    var cards := PackAt(packs, slot);
    if IsPickAction(step.Act()) then
      var (popped, rest) := Pop(seat.pickQueue);
      var picked := ResolvePick(popped, cards, seat.cardsPicked);
      (seat1.(cardsInPack := cards, pickQueue := rest, picked := seat.picked + [OrMinusOne(picked)],
              selection := picked, step := Some(step)),
       if 0 <= slot < |packs| then packs[slot := Without(cards, picked)] else packs)
    else if IsTrashAction(step.Act()) then
      var (trashed, rest) := Pop(seat.trashQueue);
      (seat1.(cardsInPack := cards, trashQueue := rest, trashed := seat.trashed + [OrMinusOne(trashed)],
              selection := trashed, step := Some(step)),
       if 0 <= slot < |packs| then packs[slot := Without(cards, trashed)] else packs)
    else
      (seat1, packs)
  }

  /** The slot seat i reads: `(i + offset) % n`. */
  function Slot(i: int, offset: int, n: int): int
    requires n > 0
  {
    (i + offset) % n
  }

  /** Seats 0 .. k-1 take their turns at `step`, in seat order. */
  function Turns(states: seq<DrafterState>, packs: seq<seq<int>>, offset: int, step: FlatStep, k: nat): (r: (seq<DrafterState>, seq<seq<int>>))
    requires 0 < |states| && k <= |states|
    ensures |r.0| == |states| && |r.1| == |packs|
  {
    if k == 0 then (states, packs)
    else
      var (s, p) := Turns(states, packs, offset, step, k - 1);
      var (seat, p') := SeatTurn(s[k - 1], p, Slot(k - 1, offset, |states|), step);
      (s[k - 1 := seat], p')
  }

  /** `packsWithCards` when pack `p` is opened: every seat's p-th dealt pack. */
  function OpenPacks(init: seq<seq<InitialPack>>, p: int): (r: seq<seq<int>>)
    ensures |r| == |init|
  {
    seq(|init|, i requires 0 <= i < |init| => if 0 <= p < |init[i]| then init[i][p].cards else [])
  }

  /** A step opens fresh packs when it is the first non-pass step of its pack (`pick === 1`). */
  predicate Opens(step: FlatStep) {
    step.Unit? && step.pick == 1 && step.action != Pass
  }

  /** The offset after a pass in (0-based) pack `pack`: +1 for even packs, +(n-1) for odd ones. */
  function OffsetAfterPass(offset: int, pack: int, n: int): (r: int)
    requires n > 0
    ensures 0 <= r < n
  {
    (offset + (if pack % 2 == 0 then 1 else n - 1)) % n
  }

  /** The whole replay's variables. */
  datatype Replay = Replay(states: seq<DrafterState>, packs: seq<seq<int>>, offset: int, stopped: bool)

  /** The seat's picks and trashes so far. */
  function Taken(s: DrafterState): nat {
    |s.picked| + |s.trashed|
  }

  /** One iteration of the replay loop: open, let every seat act, stop or pass. */
  function ReplayStep(rs: Replay, step: FlatStep, init: seq<seq<InitialPack>>, seatNumber: nat, pickNumber: int): (r: Replay)
    requires seatNumber < |rs.states|
    ensures |r.states| == |rs.states|
  {
    if rs.stopped then rs
    else
      var packs := if Opens(step) then OpenPacks(init, step.pack) else rs.packs;
      var offset := if Opens(step) then 0 else rs.offset;
      var (states, packs') := Turns(rs.states, packs, offset, step, |rs.states|);
      if Taken(states[seatNumber]) > pickNumber then Replay(states, packs', offset, true)
      else if step.Act() == Pass then Replay(states, packs', OffsetAfterPass(offset, step.pack, |states|), false)
      else Replay(states, packs', offset, false)
  }

  /** The replay after the steps `steps`, from `rs`. */
  function ReplayAll(rs: Replay, steps: seq<FlatStep>, init: seq<seq<InitialPack>>, seatNumber: nat, pickNumber: int): (r: Replay)
    requires seatNumber < |rs.states|
    ensures |r.states| == |rs.states|
  {
    if steps == [] then rs
    else ReplayStep(ReplayAll(rs, steps[..|steps| - 1], init, seatNumber, pickNumber), steps[|steps| - 1], init, seatNumber, pickNumber)
  }

  // -------------------------------------------------------------- picksList

  /** The picksList loop's variables: the list, both queues and the running index. */
  datatype Listing = Listing(picksList: map<int, seq<PickEntry>>, pickQueue: seq<int>, trashQueue: seq<int>, index: int)

  function ListStep(l: Listing, step: FlatStep): Listing {
    var m := if step.pack in l.picksList then l.picksList else l.picksList[step.pack := []];
    if IsPickAction(step.Act()) then
      var (c, q) := Pop(l.pickQueue);
      Listing(m[step.pack := m[step.pack] + [PickEntry(step.Act(), c, l.index)]], q, l.trashQueue, l.index + 1)
    else if IsTrashAction(step.Act()) then
      var (c, q) := Pop(l.trashQueue);
      Listing(m[step.pack := m[step.pack] + [PickEntry(step.Act(), c, l.index)]], l.pickQueue, q, l.index + 1)
    else Listing(m, l.pickQueue, l.trashQueue, l.index)
  }

  function ListAll(l: Listing, steps: seq<FlatStep>): Listing {
    if steps == [] then l else ListStep(ListAll(l, steps[..|steps| - 1]), steps[|steps| - 1])
  }

  /** Steps that record a pick or a trash. */
  function Recorded(steps: seq<FlatStep>): nat {
    if steps == [] then 0
    else
      var last := steps[|steps| - 1];
      Recorded(steps[..|steps| - 1]) + (if IsPickAction(last.Act()) || IsTrashAction(last.Act()) then 1 else 0)
  }

  /** The packs the steps name. */
  function PacksNamed(steps: seq<FlatStep>): set<int> {
    set k | 0 <= k < |steps| :: steps[k].pack
  }

  /**
   * picksList has a list for every pack a step names, and the running index
   * counts the recorded picks and trashes.
   */
  lemma {:induction false} ListAllShape(pickorder: seq<int>, trashorder: seq<int>, steps: seq<FlatStep>)
    ensures var l := ListAll(Listing(map[], pickorder, trashorder, 0), steps);
      l.picksList.Keys == PacksNamed(steps) && l.index == Recorded(steps)
  {
    if steps != [] {
      var n := |steps| - 1;
      ListAllShape(pickorder, trashorder, steps[..n]);
      ListStepShape(ListAll(Listing(map[], pickorder, trashorder, 0), steps[..n]), steps[n]);
      PacksNamedSnoc(steps);
    }
  }

  /** One step adds its pack to picksList and counts a pick or a trash. */
  lemma ListStepShape(l: Listing, step: FlatStep)
    ensures ListStep(l, step).picksList.Keys == l.picksList.Keys + {step.pack}
    ensures ListStep(l, step).index == l.index + (if IsPickAction(step.Act()) || IsTrashAction(step.Act()) then 1 else 0)
  {
  }

  lemma PacksNamedSnoc(steps: seq<FlatStep>)
    requires steps != []
    ensures PacksNamed(steps) == PacksNamed(steps[..|steps| - 1]) + {steps[|steps| - 1].pack}
  {
    var n := |steps| - 1;
    forall x | x in PacksNamed(steps) ensures x in PacksNamed(steps[..n]) + {steps[n].pack} {
      var k :| 0 <= k < |steps| && steps[k].pack == x;
      if k < n {
        assert steps[..n][k] == steps[k];
      }
    }
    forall x | x in PacksNamed(steps[..n]) ensures x in PacksNamed(steps) {
      var k :| 0 <= k < n && steps[..n][k].pack == x;
      assert steps[k] == steps[..n][k];
    }
  }

  /** The per-seat picksList loop. */
  method BuildPicksList(steps: seq<FlatStep>, pickorder: seq<int>, trashorder: seq<int>) returns (picksList: map<int, seq<PickEntry>>)
    ensures picksList == ListAll(Listing(map[], pickorder, trashorder, 0), steps).picksList
  {
    var l := Listing(map[], pickorder, trashorder, 0);
    var j := 0;
    while j < |steps|
      invariant 0 <= j <= |steps|
      invariant l == ListAll(Listing(map[], pickorder, trashorder, 0), steps[..j])
    {
      assert steps[..j + 1][..j] == steps[..j];
      l := ListOne(l, steps[j]);
      j := j + 1;
    }
    assert steps[..|steps|] == steps;
    picksList := l.picksList;
  }

  /** One iteration of the picksList loop. */
  method ListOne(l: Listing, step: FlatStep) returns (r: Listing)
    ensures r == ListStep(l, step)
  {
    var picksList, pickQueue, trashQueue, index := l.picksList, l.pickQueue, l.trashQueue, l.index;
    if step.pack !in picksList {
      picksList := picksList[step.pack := []];
    }
    if IsPickAction(step.Act()) {
      var c := None;
      if |pickQueue| > 0 {
        c := Some(pickQueue[|pickQueue| - 1]);
        pickQueue := pickQueue[..|pickQueue| - 1];
      }
      picksList := picksList[step.pack := picksList[step.pack] + [PickEntry(step.Act(), c, index)]];
      index := index + 1;
    } else if IsTrashAction(step.Act()) {
      var c := None;
      if |trashQueue| > 0 {
        c := Some(trashQueue[|trashQueue| - 1]);
        trashQueue := trashQueue[..|trashQueue| - 1];
      }
      picksList := picksList[step.pack := picksList[step.pack] + [PickEntry(step.Act(), c, index)]];
      index := index + 1;
    }
    r := Listing(picksList, pickQueue, trashQueue, index);
  }

  // ------------------------------------------------------------ the replay

  /** `(pickorder || []).slice()` and friends: a seat's state before the first step. */
  function InitialDrafter(seat: DraftSeat, steps: seq<FlatStep>): DrafterState {
    var po := seat.pickorder.GetOr([]);
    var to := seat.trashorder.GetOr([]);
    DrafterState([], [], po, to, FlatGrid(seat.mainboard) + FlatGrid(seat.sideboard), [],
                 ListAll(Listing(map[], po, to, 0), steps).picksList, None, None, None, None)
  }

  /** The InitialState a replay can read: one dealt list per seat, none shorter than seat 0's. */
  predicate Replayable(init: seq<seq<InitialPack>>, seats: nat) {
    |init| >= seats > 0 && forall i :: 0 <= i < |init| ==> |init[i]| >= |init[0]|
  }

  /** getDrafterState's result. */
  function DrafterStateOf(seats: seq<DraftSeat>, initialState: Option<seq<seq<InitialPack>>>, seatNumber: nat, pickNumber: int): DrafterState
    requires initialState.Some? ==> seatNumber < |seats| && Replayable(initialState.value, |seats|)
  {
    if initialState.None? then EmptyState
    else
      var steps := GetStepList(initialState.value);
      var states := seq(|seats|, i requires 0 <= i < |seats| => InitialDrafter(seats[i], steps));
      ReplayAll(Replay(states, [], 0, false), steps, initialState.value, seatNumber, pickNumber).states[seatNumber]
  }

  /** A non-pass unit step: the only steps that take from a pack or open packs. */
  predicate Takes(x: FlatStep) {
    x.Unit? && x.action != Pass
  }

  /** Within one pack's flattened steps, the first non-pass entry has pick 1. */
  lemma FlattenFirstTakerOpens(steps: seq<DraftStep>, pack: int, j: nat)
    requires j < |Flatten(steps, pack)| && Takes(Flatten(steps, pack)[j])
    requires forall k :: 0 <= k < j ==> !Takes(Flatten(steps, pack)[k])
    ensures Flatten(steps, pack)[j].pick == 1
  {
    var r := Flatten(steps, pack);
    FlattenCounters(steps, pack);
    assert forall i :: 0 <= i < j ==> r[..j][i].Act() == Pass;
    PrefixCount(r[..j], j, Pass);
    assert r[..j][..j] == r[..j];
    assert r[..j + 1] == r[..j] + [r[j]];
    NonPassCountAppend(r[..j], [r[j]]);
    assert [r[j]][1..] == [];
  }

  /** In a step list, the first non-pass entry has pick 1, so it opens the packs. */
  lemma {:induction false} StepListFirstTakerOpens(packs: seq<InitialPack>, first: int, j: nat)
    requires j < |StepListFrom(packs, first)| && Takes(StepListFrom(packs, first)[j])
    requires forall k :: 0 <= k < j ==> !Takes(StepListFrom(packs, first)[k])
    ensures StepListFrom(packs, first)[j].pick == 1
  {
    var r := StepListFrom(packs, first);
    var f := Flatten(PackSteps(packs[0]), first);
    var rest := StepListFrom(packs[1..], first + 1);
    assert r == f + [EndOfPack(first + 1)] + rest;
    if j < |f| {
      assert r[j] == f[j];
      assert forall k :: 0 <= k < j ==> f[k] == r[k];
      FlattenFirstTakerOpens(PackSteps(packs[0]), first, j);
    } else if j > |f| {
      var j' := j - |f| - 1;
      var first' := first + 1;
      assert r[j] == rest[j'];
      assert forall k :: 0 <= k < j' ==> rest[k] == r[k + |f| + 1];
      StepListFirstTakerOpens(packs[1..], first', j');
      assert StepListFrom(packs[1..], first')[j'].pick == 1;
    }
  }

  /** No step before `j` takes from a pack. */
  predicate NoTakerBefore(steps: seq<FlatStep>, j: int) {
    forall k :: 0 <= k < j && k < |steps| ==> !Takes(steps[k])
  }

  /** What the replay needs to know about entry `j` of the step list. */
  lemma StepFacts(init: seq<seq<InitialPack>>, j: nat)
    requires |init| > 0 && j < |GetStepList(init)|
    ensures var steps := GetStepList(init);
      && (steps[j].Unit? ==> 0 <= steps[j].pack < |init[0]|)
      && (Takes(steps[j]) && NoTakerBefore(steps, j) ==> steps[j].pick == 1)
      && (NoTakerBefore(steps, j) && !Takes(steps[j]) ==> NoTakerBefore(steps, j + 1))
  {
    GetStepListPacks(init);
    if Takes(GetStepList(init)[j]) && NoTakerBefore(GetStepList(init), j) {
      StepListFirstTakerOpens(init[0], 0, j);
    }
  }

  lemma ReplayAllSnoc(rs: Replay, steps: seq<FlatStep>, j: nat, init: seq<seq<InitialPack>>, seatNumber: nat, pickNumber: int)
    requires seatNumber < |rs.states| && j < |steps|
    ensures ReplayAll(rs, steps[..j + 1], init, seatNumber, pickNumber)
      == ReplayStep(ReplayAll(rs, steps[..j], init, seatNumber, pickNumber), steps[j], init, seatNumber, pickNumber)
  {
    assert steps[..j + 1][..j] == steps[..j];
  }

  /** Two seats never read the same slot in one step. */
  lemma SlotsDistinct(i: nat, k: nat, offset: int, n: int)
    requires i < n && k < n && i != k && 0 <= offset < n
    ensures Slot(i, offset, n) != Slot(k, offset, n)
  {
    ModBelowTwice(i + offset, n);
    ModBelowTwice(k + offset, n);
  }

  lemma ModBelowTwice(x: int, n: int)
    requires 0 <= x < 2 * n
    ensures x % n == if x < n then x else x - n
  {
    if x >= n {
      assert x == (x - n) + n;
    }
  }

  lemma SlotInRange(i: nat, offset: int, n: int)
    requires i < n && 0 <= offset < n
    ensures 0 <= Slot(i, offset, n) < n
  {
    ModBelowTwice(i + offset, n);
  }

  /** One seat's turn at a pick or trash: it reads pack `slot`, which loses its selection; no other pack changes. */
  lemma SeatTurnEffect(seat: DrafterState, packs: seq<seq<int>>, slot: int, step: FlatStep)
    requires 0 <= slot < |packs| && (IsPickAction(step.Act()) || IsTrashAction(step.Act()))
    ensures var (s, p) := SeatTurn(seat, packs, slot, step);
      && s.cardsInPack == packs[slot]
      && p == packs[slot := Without(packs[slot], s.selection)]
      && |s.picked| == |seat.picked| + (if IsPickAction(step.Act()) then 1 else 0)
      && |s.trashed| == |seat.trashed| + (if IsTrashAction(step.Act()) then 1 else 0)
  {
  }

  /** Seat `after` read pack `slot` of `packs`, which in `p` has lost the seat's selection. */
  predicate ReadAndTook(before: DrafterState, after: DrafterState, packs: seq<seq<int>>, p: seq<seq<int>>, slot: int, step: FlatStep) {
    && 0 <= slot < |packs| && slot < |p|
    && after.cardsInPack == packs[slot]
    && p[slot] == Without(packs[slot], after.selection)
    && |after.picked| == |before.picked| + (if IsPickAction(step.Act()) then 1 else 0)
    && |after.trashed| == |before.trashed| + (if IsTrashAction(step.Act()) then 1 else 0)
  }

  /** Seats from k on have not acted yet, and packs no earlier seat read are unchanged. */
  lemma {:induction false} TurnsUntouched(states: seq<DrafterState>, packs: seq<seq<int>>, offset: int, step: FlatStep, k: nat)
    requires 0 < |states| && k <= |states| && 0 <= offset < |states| && |packs| >= |states|
    ensures forall i :: k <= i < |states| ==> Turns(states, packs, offset, step, k).0[i] == states[i]
    ensures forall slot ::
      (0 <= slot < |packs| && (forall i :: 0 <= i < k ==> Slot(i, offset, |states|) != slot))
        ==> Turns(states, packs, offset, step, k).1[slot] == packs[slot]
  {
    if k > 0 {
      TurnsUntouched(states, packs, offset, step, k - 1);
      SlotInRange(k - 1, offset, |states|);
    }
  }

  /** Seat k-1, acting last among the first k, reads its rotated pack untouched by the seats before it. */
  lemma TurnsNewSeat(states: seq<DrafterState>, packs: seq<seq<int>>, offset: int, step: FlatStep, k: nat)
    requires 0 < k <= |states| && 0 <= offset < |states| && |packs| >= |states|
    requires IsPickAction(step.Act()) || IsTrashAction(step.Act())
    ensures ReadAndTook(states[k - 1], Turns(states, packs, offset, step, k).0[k - 1], packs,
                        Turns(states, packs, offset, step, k).1, Slot(k - 1, offset, |states|), step)
  {
    var n := |states|;
    TurnsUntouched(states, packs, offset, step, k - 1);
    var s := Turns(states, packs, offset, step, k - 1).0;
    var p := Turns(states, packs, offset, step, k - 1).1;
    var slot := Slot(k - 1, offset, n);
    SlotInRange(k - 1, offset, n);
    forall i | 0 <= i < k - 1 ensures Slot(i, offset, n) != slot {
      SlotsDistinct(i, k - 1, offset, n);
    }
    assert p[slot] == packs[slot];
    SeatTurnEffect(s[k - 1], p, slot, step);
  }

  /** What an earlier seat did survives the turn of seat k-1, which reads a different pack. */
  lemma TurnsKeepEarlierSeat(states: seq<DrafterState>, packs: seq<seq<int>>, offset: int, step: FlatStep, k: nat, i: nat)
    requires 0 < k <= |states| && 0 <= offset < |states| && |packs| >= |states| && i < k - 1
    requires IsPickAction(step.Act()) || IsTrashAction(step.Act())
    requires ReadAndTook(states[i], Turns(states, packs, offset, step, k - 1).0[i], packs,
                         Turns(states, packs, offset, step, k - 1).1, Slot(i, offset, |states|), step)
    ensures ReadAndTook(states[i], Turns(states, packs, offset, step, k).0[i], packs,
                        Turns(states, packs, offset, step, k).1, Slot(i, offset, |states|), step)
  {
    var n := |states|;
    SlotInRange(k - 1, offset, n);
    SlotsDistinct(i, k - 1, offset, n);
    var p := Turns(states, packs, offset, step, k - 1).1;
    var s := Turns(states, packs, offset, step, k - 1).0;
    SeatTurnEffect(s[k - 1], p, Slot(k - 1, offset, n), step);
  }

  /**
   * At a pick or trash, seat i reads pack (i + offset) mod n, and that pack
   * loses exactly the card the seat selected; every seat records one more
   * pick (or trash).
   */
  lemma TurnsReadRotatedPacks(states: seq<DrafterState>, packs: seq<seq<int>>, offset: int, step: FlatStep, k: nat)
    requires 0 < |states| && k <= |states| && 0 <= offset < |states| && |packs| >= |states|
    requires IsPickAction(step.Act()) || IsTrashAction(step.Act())
    ensures forall i :: 0 <= i < k ==>
      ReadAndTook(states[i], Turns(states, packs, offset, step, k).0[i], packs, Turns(states, packs, offset, step, k).1,
                  Slot(i, offset, |states|), step)
  {
    forall i | 0 <= i < k
      ensures ReadAndTook(states[i], Turns(states, packs, offset, step, k).0[i], packs, Turns(states, packs, offset, step, k).1,
                          Slot(i, offset, |states|), step)
    {
      TurnReadRotatedPack(states, packs, offset, step, k, i);
    }
  }

  /** Seat i, once the first k seats have acted, read its rotated pack and took its selection from it. */
  lemma {:induction false} TurnReadRotatedPack(states: seq<DrafterState>, packs: seq<seq<int>>, offset: int, step: FlatStep, k: nat, i: nat)
    requires 0 < |states| && i < k <= |states| && 0 <= offset < |states| && |packs| >= |states|
    requires IsPickAction(step.Act()) || IsTrashAction(step.Act())
    ensures ReadAndTook(states[i], Turns(states, packs, offset, step, k).0[i], packs, Turns(states, packs, offset, step, k).1,
                        Slot(i, offset, |states|), step)
    decreases k
  {
    if i == k - 1 {
      TurnsNewSeat(states, packs, offset, step, k);
    } else {
      TurnReadRotatedPack(states, packs, offset, step, k - 1, i);
      TurnsKeepEarlierSeat(states, packs, offset, step, k, i);
    }
  }

  /** A recorded pick of card 0 is stored as -1 (`picked || -1`), yet card 0 is the selection and leaves the pack. */
  lemma PickOfCardZeroRecordedAsMinusOne(seat: DrafterState, packs: seq<seq<int>>, slot: nat, step: FlatStep)
    requires slot < |packs| && IsPickAction(step.Act())
    requires |seat.pickQueue| > 0 && seat.pickQueue[|seat.pickQueue| - 1] == 0
    ensures var (s, p) := SeatTurn(seat, packs, slot, step);
      && s.picked == seat.picked + [-1]
      && s.selection == Some(0)
      && 0 !in p[slot]
  {
    var (s, p) := SeatTurn(seat, packs, slot, step);
    WithoutMembers(packs[slot], Some(0), 0);
  }

  /** A recorded -1 is replaced by the first card of the pack the seat ended up with. */
  lemma MissingPickResolved(seat: DrafterState, packs: seq<seq<int>>, slot: nat, step: FlatStep)
    requires slot < |packs| && IsPickAction(step.Act())
    requires |seat.pickQueue| > 0 && seat.pickQueue[|seat.pickQueue| - 1] == -1
    ensures var s := SeatTurn(seat, packs, slot, step).0;
      && (FirstKept(packs[slot], seat.cardsPicked).Some? ==> s.selection == FirstKept(packs[slot], seat.cardsPicked))
      && (FirstKept(packs[slot], seat.cardsPicked).None? ==> s.selection == Some(-1) && s.picked == seat.picked + [-1])
  {
  }

  /** Once the replay stops, later steps change nothing. */
  lemma {:induction false} ReplayStaysStopped(rs: Replay, steps: seq<FlatStep>, k: nat, init: seq<seq<InitialPack>>, seatNumber: nat, pickNumber: int)
    requires seatNumber < |rs.states| && k <= |steps|
    requires ReplayAll(rs, steps[..k], init, seatNumber, pickNumber).stopped
    ensures ReplayAll(rs, steps, init, seatNumber, pickNumber) == ReplayAll(rs, steps[..k], init, seatNumber, pickNumber)
    decreases |steps| - k
  {
    if k < |steps| {
      assert steps[..k + 1][..k] == steps[..k];
      ReplayStaysStopped(rs, steps, k + 1, init, seatNumber, pickNumber);
    } else {
      assert steps[..k] == steps;
    }
  }

  /**
   * The replay stops exactly when the seat's picks and trashes exceed
   * pickNumber; while it runs they never do.
   */
  lemma {:induction false} ReplayStopsPastPick(rs: Replay, steps: seq<FlatStep>, init: seq<seq<InitialPack>>, seatNumber: nat, pickNumber: int)
    requires seatNumber < |rs.states| && !rs.stopped && Taken(rs.states[seatNumber]) <= pickNumber
    ensures var r := ReplayAll(rs, steps, init, seatNumber, pickNumber);
      r.stopped <==> Taken(r.states[seatNumber]) > pickNumber
  {
    if steps != [] {
      ReplayStopsPastPick(rs, steps[..|steps| - 1], init, seatNumber, pickNumber);
    }
  }

  // ---------------------------------------------------------------- methods

  /** The `cardsPicked.includes` search over the pack. */
  method FindKept(cardsInPack: seq<int>, cardsPicked: seq<int>) returns (r: Option<int>)
    ensures r == FirstKept(cardsInPack, cardsPicked)
  {
    r := None;
    var k := 0;
    while k < |cardsInPack|
      invariant 0 <= k <= |cardsInPack|
      invariant FirstKept(cardsInPack, cardsPicked) == FirstKept(cardsInPack[k..], cardsPicked)
    {
      assert cardsInPack[k..][1..] == cardsInPack[k + 1..];
      if cardsInPack[k] in cardsPicked {
        return Some(cardsInPack[k]);
      }
      k := k + 1;
    }
  }

  /** One seat's part of a step. */
  method TakeTurn(seat: DrafterState, packs: seq<seq<int>>, slot: int, step: FlatStep) returns (seat': DrafterState, packs': seq<seq<int>>)
    requires IsPickAction(step.Act()) || IsTrashAction(step.Act()) ==> 0 <= slot < |packs|
    ensures (seat', packs') == SeatTurn(seat, packs, slot, step)
  {
    seat' := seat.(pick := StepPick(step), pack := Some(step.pack));
    packs' := packs;
    if IsPickAction(step.Act()) {
      var cardsInPack := packs[slot];
      var pickQueue := seat.pickQueue;
      var picked := None;
      if |pickQueue| > 0 {
        picked := Some(pickQueue[|pickQueue| - 1]);
        pickQueue := pickQueue[..|pickQueue| - 1];
      }
      if picked == Some(-1) {
        var kept := FindKept(cardsInPack, seat.cardsPicked);
        if kept.Some? {
          picked := kept;
        }
      }
      seat' := seat'.(cardsInPack := cardsInPack, pickQueue := pickQueue, picked := seat.picked + [OrMinusOne(picked)],
                      selection := picked, step := Some(step));
      packs' := packs[slot := Without(cardsInPack, picked)];
    } else if IsTrashAction(step.Act()) {
      var cardsInPack := packs[slot];
      var trashQueue := seat.trashQueue;
      var trashed := None;
      if |trashQueue| > 0 {
        trashed := Some(trashQueue[|trashQueue| - 1]);
        trashQueue := trashQueue[..|trashQueue| - 1];
      }
      seat' := seat'.(cardsInPack := cardsInPack, trashQueue := trashQueue, trashed := seat.trashed + [OrMinusOne(trashed)],
                      selection := trashed, step := Some(step));
      packs' := packs[slot := Without(cardsInPack, trashed)];
    }
  }

  /** Every seat, in order, takes its part of the step. */
  method AllTurns(states: seq<DrafterState>, packs: seq<seq<int>>, offset: int, step: FlatStep) returns (states': seq<DrafterState>, packs': seq<seq<int>>)
    requires 0 < |states| && 0 <= offset < |states|
    requires IsPickAction(step.Act()) || IsTrashAction(step.Act()) ==> |packs| >= |states|
    ensures (states', packs') == Turns(states, packs, offset, step, |states|)
  {
    states', packs' := states, packs;
    var i := 0;
    while i < |states|
      invariant 0 <= i <= |states|
      invariant (states', packs') == Turns(states, packs, offset, step, i)
    {
      SlotInRange(i, offset, |states|);
      var seat, p := TakeTurn(states'[i], packs', Slot(i, offset, |states|), step);
      TurnsSnoc(states, packs, offset, step, i, states', packs', seat, p);
      states', packs' := states'[i := seat], p;
      i := i + 1;
    }
  }

  lemma TurnsSnoc(states: seq<DrafterState>, packs: seq<seq<int>>, offset: int, step: FlatStep, i: nat,
                  s: seq<DrafterState>, p: seq<seq<int>>, seat: DrafterState, p': seq<seq<int>>)
    requires 0 < |states| && i < |states| && (s, p) == Turns(states, packs, offset, step, i)
    requires (seat, p') == SeatTurn(s[i], p, Slot(i, offset, |states|), step)
    ensures Turns(states, packs, offset, step, i + 1) == (s[i := seat], p')
  {
  }

  /** `packsWithCards[i] = InitialState[i][pack].cards.slice()` for every i. */
  method OpenPacksLoop(init: seq<seq<InitialPack>>, pack: int) returns (packs: seq<seq<int>>)
    requires forall i :: 0 <= i < |init| ==> 0 <= pack < |init[i]|
    ensures packs == OpenPacks(init, pack)
  {
    packs := [];
    var i := 0;
    while i < |init|
      invariant 0 <= i <= |init|
      invariant packs == OpenPacks(init, pack)[..i]
    {
      packs := packs + [init[i][pack].cards];
      i := i + 1;
    }
  }

  /** The seats' states before the replay. */
  method BuildStates(seats: seq<DraftSeat>, steps: seq<FlatStep>) returns (states: seq<DrafterState>)
    ensures states == seq(|seats|, i requires 0 <= i < |seats| => InitialDrafter(seats[i], steps))
  {
    states := [];
    var i := 0;
    while i < |seats|
      invariant 0 <= i <= |seats|
      invariant states == seq(i, k requires 0 <= k < i => InitialDrafter(seats[k], steps))
    {
      var pickorder := seats[i].pickorder.GetOr([]);
      var trashorder := seats[i].trashorder.GetOr([]);
      var picksList := BuildPicksList(steps, pickorder, trashorder);
      states := states + [DrafterState([], [], pickorder, trashorder,
                                       FlatGrid(seats[i].mainboard) + FlatGrid(seats[i].sideboard), [],
                                       picksList, None, None, None, None)];
      i := i + 1;
    }
  }

  /** One iteration of getDrafterState's loop over the steps. */
  method ReplayOne(states: seq<DrafterState>, packs: seq<seq<int>>, offset: int, step: FlatStep,
                   init: seq<seq<InitialPack>>, seatNumber: nat, pickNumber: int)
    returns (states': seq<DrafterState>, packs': seq<seq<int>>, offset': int, stopped: bool)
    requires seatNumber < |states| && 0 <= offset < |states| && Replayable(init, |states|)
    requires step.Unit? ==> 0 <= step.pack < |init[0]|
    requires Takes(step) && |packs| < |states| ==> step.pick == 1
    ensures Replay(states', packs', offset', stopped) == ReplayStep(Replay(states, packs, offset, false), step, init, seatNumber, pickNumber)
    ensures |states'| == |states| && 0 <= offset' < |states|
    ensures |packs| >= |states| || Takes(step) ==> |packs'| >= |states|
  {
    var n := |states|;
    packs' := packs;
    offset' := offset;
    if Opens(step) {
      packs' := OpenPacksLoop(init, step.pack);
      offset' := 0;
    }
    states', packs' := AllTurns(states, packs', offset', step);
    if Taken(states'[seatNumber]) > pickNumber {
      return states', packs', offset', true;
    }
    if step.Act() == Pass {
      offset' := (offset' + (if step.pack % 2 == 0 then 1 else n - 1)) % n;
    }
    stopped := false;
  }

  /** getDrafterState's loop over the steps, from the seats' initial states. */
  method RunReplay(states0: seq<DrafterState>, steps: seq<FlatStep>, init: seq<seq<InitialPack>>, seatNumber: nat, pickNumber: int)
    returns (st: DrafterState)
    requires seatNumber < |states0| && Replayable(init, |states0|)
    requires steps == GetStepList(init)
    ensures st == ReplayAll(Replay(states0, [], 0, false), steps, init, seatNumber, pickNumber).states[seatNumber]
  {
    var n := |states0|;
    var states := states0;
    ghost var rs0 := Replay(states0, [], 0, false);
    var packsWithCards: seq<seq<int>> := [];
    var offset := 0;
    var j := 0;
    while j < |steps|
      invariant 0 <= j <= |steps|
      invariant |states| == n && 0 <= offset < n
      invariant Replay(states, packsWithCards, offset, false) == ReplayAll(rs0, steps[..j], init, seatNumber, pickNumber)
      invariant |packsWithCards| >= n || NoTakerBefore(steps, j)
    {
      var step := steps[j];
      StepFacts(init, j);
      ReplayAllSnoc(rs0, steps, j, init, seatNumber, pickNumber);
      var stopped;
      states, packsWithCards, offset, stopped := ReplayOne(states, packsWithCards, offset, step, init, seatNumber, pickNumber);
      if stopped {
        ReplayStaysStopped(rs0, steps, j + 1, init, seatNumber, pickNumber);
        return states[seatNumber];
      }
      j := j + 1;
    }
    assert steps[..|steps|] == steps;
    st := states[seatNumber];
  }

  /** getDrafterState. */
  method GetDrafterState(seats: seq<DraftSeat>, initialState: Option<seq<seq<InitialPack>>>, seatNumber: nat, pickNumber: int)
    returns (st: DrafterState)
    requires initialState.Some? ==> seatNumber < |seats| && Replayable(initialState.value, |seats|)
    ensures initialState.None? ==> st == EmptyState
    ensures st == DrafterStateOf(seats, initialState, seatNumber, pickNumber)
  {
    if initialState.None? {
      return EmptyState;
    }
    var init := initialState.value;
    var steps := GetStepList(init);
    var states := BuildStates(seats, steps);
    st := RunReplay(states, steps, init, seatNumber, pickNumber);
  }
}
