/**
 * The state a draft starts from: every seat holds the first pack it was dealt
 * and the step queue lists the steps of seat 0's packs, each pack closed by an
 * endpack step. Two builders exist: getInitialState in src/util/draftutil.ts
 * and the page-local one in src/client/pages/CubeDraftPage.tsx, which differ
 * in how they place endpack steps.
 */
module InitialStates {
  import opened Wrappers
  import opened DraftSteps

  /** A seat of the client state; `None` in a pile is a JavaScript `undefined` entry. */
  datatype Seat = Seat(picks: seq<Option<int>>, trashed: seq<Option<int>>, pack: seq<int>)

  /** The client's draft state: seats, remaining steps, current pack and pick (both 1-based). */
  datatype State = State(seats: seq<Seat>, stepQueue: seq<DraftStep>, pack: int, pick: int)

  /** `{ action: 'endpack', amount: null }`. */
  const EndPackStep := DraftStep(EndPack, None)

  /** The steps of a pack whose steps are present. */
  predicate HasSteps(packs: seq<InitialPack>) {
    forall k :: 0 <= k < |packs| ==> packs[k].steps.Some?
  }

  /** Every seat has a first pack (the builders read `InitialState[index][0]`). */
  predicate DealtFirstPacks(initialState: seq<seq<InitialPack>>, seats: nat) {
    |initialState| >= seats && forall i :: 0 <= i < seats ==> |initialState[i]| > 0
  }

  /** What getInitialState's loop adds for one pack: nothing for empty steps, else the steps and an endpack unless they already end with one. */
  function UtilPackQueue(steps: seq<DraftStep>): seq<DraftStep> {
    if steps == [] then []
    else steps + (if steps[|steps| - 1].action == EndPack then [] else [EndPackStep])
  }

  /** The page builder adds every pack's steps followed by an endpack. */
  function PagePackQueue(steps: seq<DraftStep>): seq<DraftStep> {
    steps + [EndPackStep]
  }

  /** The queue draftutil's getInitialState builds from seat 0's packs. */
  function UtilQueue(packs: seq<InitialPack>): seq<DraftStep>
    requires HasSteps(packs)
  {
    if packs == [] then []
    else UtilQueue(packs[..|packs| - 1]) + UtilPackQueue(packs[|packs| - 1].steps.value)
  }

  /** The queue the page's getInitialState builds from seat 0's packs. */
  function PageQueue(packs: seq<InitialPack>): seq<DraftStep>
    requires HasSteps(packs)
  {
    if packs == [] then []
    else PageQueue(packs[..|packs| - 1]) + PagePackQueue(packs[|packs| - 1].steps.value)
  }

  /** Every seat starts with empty piles and its first dealt pack (no packs without an InitialState). */
  function InitialSeats(seats: nat, initialState: Option<seq<seq<InitialPack>>>): (r: seq<Seat>)
    requires initialState.Some? ==> DealtFirstPacks(initialState.value, seats)
    ensures |r| == seats
    ensures forall i :: 0 <= i < seats ==> r[i].picks == [] && r[i].trashed == []
    ensures forall i :: 0 <= i < seats ==>
      r[i].pack == if initialState.Some? then initialState.value[i][0].cards else []
  {
    seq(seats, i requires 0 <= i < seats =>
      Seat([], [], if initialState.Some? then initialState.value[i][0].cards else []))
  }

  /** The queue of a builder when there is no InitialState is empty. */
  function SeatZeroPacks(initialState: Option<seq<seq<InitialPack>>>): seq<InitialPack> {
    if initialState.Some? && |initialState.value| > 0 then initialState.value[0] else []
  }

  /** The precondition both builders share: seat 0's steps are present and every seat has a first pack. */
  predicate Buildable(seats: nat, initialState: Option<seq<seq<InitialPack>>>) {
    initialState.Some? ==>
      && |initialState.value| > 0
      && HasSteps(initialState.value[0])
      && DealtFirstPacks(initialState.value, seats)
  }

  lemma UtilQueueSnoc(packs: seq<InitialPack>, k: nat)
    requires HasSteps(packs) && k < |packs|
    ensures UtilQueue(packs[..k + 1]) == UtilQueue(packs[..k]) + UtilPackQueue(packs[k].steps.value)
  {
    assert packs[..k + 1][..k] == packs[..k];
  }

  lemma PageQueueSnoc(packs: seq<InitialPack>, k: nat)
    requires HasSteps(packs) && k < |packs|
    ensures PageQueue(packs[..k + 1]) == PageQueue(packs[..k]) + PagePackQueue(packs[k].steps.value)
  {
    assert packs[..k + 1][..k] == packs[..k];
  }

  /** getInitialState (src/util/draftutil.ts). */
  method GetInitialState(seats: nat, initialState: Option<seq<seq<InitialPack>>>) returns (s: State)
    requires Buildable(seats, initialState)
    ensures s.seats == InitialSeats(seats, initialState)
    ensures s.stepQueue == UtilQueue(SeatZeroPacks(initialState))
    ensures s.pack == 1 && s.pick == 1
  {
    var stepQueue: seq<DraftStep> := [];
    if initialState.Some? {
      stepQueue := BuildUtilQueue(initialState.value[0]);
    }
    s := State(InitialSeats(seats, initialState), stepQueue, 1, 1);
  }

  /** getInitialState's loop over seat 0's packs. */
  method BuildUtilQueue(seat: seq<InitialPack>) returns (stepQueue: seq<DraftStep>)
    requires HasSteps(seat)
    ensures stepQueue == UtilQueue(seat)
  {
    stepQueue := [];
    var k := 0;
    while k < |seat|
      invariant 0 <= k <= |seat|
      invariant stepQueue == UtilQueue(seat[..k])
    {
      UtilQueueSnoc(seat, k);
      stepQueue := AddPackSteps(stepQueue, seat[k].steps.value);
      k := k + 1;
    }
    assert seat[..|seat|] == seat;
  }

  /** One pack's part of getInitialState's loop: its steps, then an endpack unless they end with one. */
  method AddPackSteps(stepQueue: seq<DraftStep>, steps: seq<DraftStep>) returns (q: seq<DraftStep>)
    ensures q == stepQueue + UtilPackQueue(steps)
  {
    q := stepQueue;
    if |steps| != 0 {
      q := q + steps;
      if steps[|steps| - 1].action != EndPack {
        q := q + [EndPackStep];
      }
    }
  }

  /** The page-local getInitialState (src/client/pages/CubeDraftPage.tsx). */
  method PageInitialState(seats: nat, initialState: Option<seq<seq<InitialPack>>>) returns (s: State)
    requires Buildable(seats, initialState)
    ensures s.seats == InitialSeats(seats, initialState)
    ensures s.stepQueue == PageQueue(SeatZeroPacks(initialState))
    ensures s.pack == 1 && s.pick == 1
  {
    var stepQueue: seq<DraftStep> := [];
    if initialState.Some? {
      var seat := initialState.value[0];
      var k := 0;
      while k < |seat|
        invariant 0 <= k <= |seat|
        invariant stepQueue == PageQueue(seat[..k])
      {
        PageQueueSnoc(seat, k);
        stepQueue := stepQueue + seat[k].steps.value + [EndPackStep];
        k := k + 1;
      }
      assert seat[..|seat|] == seat;
    }
    s := State(InitialSeats(seats, initialState), stepQueue, 1, 1);
  }

  // ----------------------------------------------------------------- lemmas

  /** The queue without its endpack steps. */
  function WithoutEndPacks(q: seq<DraftStep>): seq<DraftStep> {
    if q == [] then []
    else WithoutEndPacks(q[..|q| - 1]) + (if q[|q| - 1].action == EndPack then [] else [q[|q| - 1]])
  }

  /** Number of endpack steps in the queue. */
  function EndPacks(q: seq<DraftStep>): nat {
    if q == [] then 0
    else EndPacks(q[..|q| - 1]) + (if q[|q| - 1].action == EndPack then 1 else 0)
  }

  /** All steps of the packs, concatenated. */
  function AllSteps(packs: seq<InitialPack>): seq<DraftStep>
    requires HasSteps(packs)
  {
    if packs == [] then [] else AllSteps(packs[..|packs| - 1]) + packs[|packs| - 1].steps.value
  }

  lemma {:induction false} WithoutEndPacksAppend(a: seq<DraftStep>, b: seq<DraftStep>)
    ensures WithoutEndPacks(a + b) == WithoutEndPacks(a) + WithoutEndPacks(b)
    ensures EndPacks(a + b) == EndPacks(a) + EndPacks(b)
  {
    if b == [] {
      assert a + b == a;
    } else {
      var n := |b| - 1;
      assert (a + b)[..|a + b| - 1] == a + b[..n];
      assert (a + b)[|a + b| - 1] == b[n];
      WithoutEndPacksAppend(a, b[..n]);
    }
  }

  /** Packs with no endpack inside their steps. */
  predicate NoInnerEndPack(packs: seq<InitialPack>)
    requires HasSteps(packs)
  {
    forall k, j :: 0 <= k < |packs| && 0 <= j < |packs[k].steps.value| ==> packs[k].steps.value[j].action != EndPack
  }

  /** Packs whose steps are non-empty. */
  function NonEmptyPacks(packs: seq<InitialPack>): nat
    requires HasSteps(packs)
  {
    if packs == [] then 0
    else NonEmptyPacks(packs[..|packs| - 1]) + (if packs[|packs| - 1].steps.value == [] then 0 else 1)
  }

  lemma {:induction false} NoEndPacksIn(q: seq<DraftStep>)
    requires forall j :: 0 <= j < |q| ==> q[j].action != EndPack
    ensures WithoutEndPacks(q) == q && EndPacks(q) == 0
  {
    if q != [] {
      NoEndPacksIn(q[..|q| - 1]);
    }
  }

  /** What one pack adds to each queue, once endpacks are removed or counted. */
  lemma PackQueueParts(steps: seq<DraftStep>)
    ensures WithoutEndPacks(UtilPackQueue(steps)) == WithoutEndPacks(steps)
    ensures WithoutEndPacks(PagePackQueue(steps)) == WithoutEndPacks(steps)
    ensures EndPacks(PagePackQueue(steps)) == EndPacks(steps) + 1
    ensures EndPacks(steps) == 0 ==> EndPacks(UtilPackQueue(steps)) == if steps == [] then 0 else 1
  {
    WithoutEndPacksAppend(steps, [EndPackStep]);
    assert [EndPackStep][..0] == [];
    if steps == [] {
      assert UtilPackQueue(steps) == [];
    } else if steps[|steps| - 1].action == EndPack {
      assert UtilPackQueue(steps) == steps;
    } else {
      assert UtilPackQueue(steps) == steps + [EndPackStep];
    }
  }

  /** Both queues hold exactly the packs' steps apart from endpack steps. */
  lemma {:induction false} QueuesHoldTheSteps(packs: seq<InitialPack>)
    requires HasSteps(packs)
    ensures WithoutEndPacks(UtilQueue(packs)) == WithoutEndPacks(AllSteps(packs))
    ensures WithoutEndPacks(PageQueue(packs)) == WithoutEndPacks(AllSteps(packs))
  {
    if packs != [] {
      var n := |packs| - 1;
      var front := packs[..n];
      var steps := packs[n].steps.value;
      assert HasSteps(front);
      QueuesHoldTheSteps(front);
      WithoutEndPacksAppend(UtilQueue(front), UtilPackQueue(steps));
      WithoutEndPacksAppend(PageQueue(front), PagePackQueue(steps));
      WithoutEndPacksAppend(AllSteps(front), steps);
      PackQueueParts(steps);
    }
  }

  /**
   * When no pack schedules an endpack itself, draftutil's queue has one
   * endpack per non-empty pack and the page's one per pack.
   */
  lemma {:induction false} QueueEndPackCounts(packs: seq<InitialPack>)
    requires HasSteps(packs) && NoInnerEndPack(packs)
    ensures EndPacks(UtilQueue(packs)) == NonEmptyPacks(packs)
    ensures EndPacks(PageQueue(packs)) == |packs|
  {
    if packs != [] {
      var n := |packs| - 1;
      var front := packs[..n];
      var steps := packs[n].steps.value;
      SplitLastPack(packs);
      QueueEndPackCounts(front);
      NoEndPacksIn(steps);
      assert UtilQueue(packs) == UtilQueue(front) + UtilPackQueue(steps);
      assert PageQueue(packs) == PageQueue(front) + PagePackQueue(steps);
      WithoutEndPacksAppend(UtilQueue(front), UtilPackQueue(steps));
      WithoutEndPacksAppend(PageQueue(front), PagePackQueue(steps));
      PackQueueParts(steps);
      assert NonEmptyPacks(packs) == NonEmptyPacks(front) + (if steps == [] then 0 else 1);
    }
  }

  /** Without its last pack, the packs still have steps and no inner endpack; the last pack has none either. */
  lemma SplitLastPack(packs: seq<InitialPack>)
    requires HasSteps(packs) && NoInnerEndPack(packs) && packs != []
    ensures HasSteps(packs[..|packs| - 1]) && NoInnerEndPack(packs[..|packs| - 1])
    ensures var steps := packs[|packs| - 1].steps.value;
      forall j :: 0 <= j < |steps| ==> steps[j].action != EndPack
  {
    var front := packs[..|packs| - 1];
    assert HasSteps(front);
    forall k, j | 0 <= k < |front| && 0 <= j < |front[k].steps.value|
      ensures front[k].steps.value[j].action != EndPack
    {
      assert front[k] == packs[k];
    }
  }

  /**
   * The two builders agree when every pack of seat 0 has steps and none of
   * them already ends with an endpack.
   */
  lemma {:induction false} QueuesAgree(packs: seq<InitialPack>)
    requires HasSteps(packs)
    requires forall k :: 0 <= k < |packs| ==>
      var s := packs[k].steps.value; |s| > 0 && s[|s| - 1].action != EndPack
    ensures UtilQueue(packs) == PageQueue(packs)
  {
    if packs != [] {
      var n := |packs| - 1;
      assert HasSteps(packs[..n]);
      assert forall k :: 0 <= k < n ==> packs[..n][k] == packs[k];
      QueuesAgree(packs[..n]);
    }
  }

  /** A pack with no steps adds nothing to draftutil's queue but a lone endpack to the page's. */
  lemma EmptyPackDiffers(p: InitialPack)
    requires p.steps == Some([])
    ensures UtilQueue([p]) == [] && PageQueue([p]) == [EndPackStep]
  {
    assert [p][..0] == [];
  }

  /** A pack already closed by an endpack gets a second one from the page builder only. */
  lemma ClosedPackDiffers(p: InitialPack)
    requires p.steps.Some? && |p.steps.value| > 0 && p.steps.value[|p.steps.value| - 1].action == EndPack
    ensures UtilQueue([p]) == p.steps.value
    ensures PageQueue([p]) == p.steps.value + [EndPackStep]
  {
    assert [p][..0] == [];
  }
}
