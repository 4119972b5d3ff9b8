/**
 * Draft steps: the per-pack action schedule of a draft format and the
 * unit-step list that a draft replays (src/util/draftutil.ts).
 */
module DraftSteps {
  import opened Wrappers
  import opened Strings

  /** The `action` strings a draft step may carry. */
  datatype Action = Pick | Pass | Trash | PickRandom | TrashRandom | EndPack

  /** `{action, amount}`; `amount` is `null` (None) or a count. */
  datatype DraftStep = DraftStep(action: Action, amount: Option<nat>)

  /**
   * One entry of a flattened step list. `Unit` is what `flattenSteps` emits;
   * `EndOfPack` is the `{pack, action: 'endpack'}` marker `getStepList` appends,
   * which has neither `pick` nor `cardsInPack`.
   */
  datatype FlatStep =
    | Unit(action: Action, pick: int, cardsInPack: int, amount: Option<int>, pack: int)
    | EndOfPack(pack: int)
  {
    function Act(): Action {
      if Unit? then action else EndPack
    }
  }

  const PickOne := DraftStep(Pick, Some(1))
  const PassOne := DraftStep(Pass, Some(1))
  /** The pass of `DEFAULT_STEPS`, whose amount is `null`. */
  const PassNull := DraftStep(Pass, None)

  /** JavaScript truthiness of `step.amount`. */
  predicate HasAmount(s: DraftStep) {
    s.amount.Some? && s.amount.value > 0
  }

  // ---------------------------------------------------------------- normalize

  /** normalizeDraftSteps: drop one trailing `pass`, if there is one. */
  function NormalizeDraftSteps(steps: seq<DraftStep>): (r: seq<DraftStep>)
  {
    if |steps| == 0 then []
    else if steps[|steps| - 1].action == Pass then steps[..|steps| - 1]
    else steps
  }

  /** The result is the input, or the input without its last element, which was a pass. */
  lemma NormalizeRemovesOnlyTrailingPass(steps: seq<DraftStep>)
    ensures var r := NormalizeDraftSteps(steps);
      && r == steps[..|r|]
      && (|steps| == 0 ==> r == [])
      && (|steps| > 0 && steps[|steps| - 1].action == Pass <==> |r| == |steps| - 1)
      && (|steps| > 0 && steps[|steps| - 1].action != Pass <==> |steps| > 0 && r == steps)
  {
  }

  /** One call removes only one pass: with two trailing passes a second call changes the result again. */
  lemma NormalizeNotIdempotent(steps: seq<DraftStep>)
    requires |steps| >= 2 && steps[|steps| - 1].action == Pass && steps[|steps| - 2].action == Pass
    ensures NormalizeDraftSteps(NormalizeDraftSteps(steps)) != NormalizeDraftSteps(steps)
  {
    assert |NormalizeDraftSteps(NormalizeDraftSteps(steps))| == |steps| - 2;
  }

  /** Without two trailing passes, normalizing twice is normalizing once. */
  lemma NormalizeIdempotentWithoutDoublePass(steps: seq<DraftStep>)
    requires !(|steps| >= 2 && steps[|steps| - 1].action == Pass && steps[|steps| - 2].action == Pass)
    ensures NormalizeDraftSteps(NormalizeDraftSteps(steps)) == NormalizeDraftSteps(steps)
  {
  }

  // ------------------------------------------------------------ default steps

  /** `new Array(n).fill([a, b]).flat()`: n copies of the pair a, b. */
  function Alternating(n: nat, a: DraftStep, b: DraftStep): (r: seq<DraftStep>)
    ensures |r| == 2 * n
    ensures forall i :: 0 <= i < |r| ==> r[i] == if i % 2 == 0 then a else b
  {
    seq(2 * n, i requires 0 <= i < 2 * n => if i % 2 == 0 then a else b)
  }

  /** defaultStepsForLength: one pick and one pass (amount 1) per card, trailing pass dropped. */
  function DefaultStepsForLength(n: nat): seq<DraftStep> {
    NormalizeDraftSteps(Alternating(n, PickOne, PassOne))
  }

  /** buildDefaultSteps: one pick and one `null`-amount pass per card, trailing pass dropped. */
  function BuildDefaultSteps(n: nat): seq<DraftStep> {
    NormalizeDraftSteps(Alternating(n, PickOne, PassNull))
  }

  /** Shape of the alternating schedules once normalized. */
  lemma NormalizedAlternatingShape(n: nat, b: DraftStep)
    requires b.action == Pass
    ensures var r := NormalizeDraftSteps(Alternating(n, PickOne, b));
      && (n == 0 ==> r == [])
      && (n >= 1 ==> |r| == 2 * n - 1 && r[0] == PickOne && r[|r| - 1] == PickOne)
      && forall i :: 0 <= i < |r| ==> r[i] == if i % 2 == 0 then PickOne else b
  {
  }

  /** buildDefaultSteps(n) has 2n-1 steps alternating `{pick,1}`, `{pass,null}`, starting and ending with pick. */
  lemma BuildDefaultStepsShape(n: nat)
    ensures var r := BuildDefaultSteps(n);
      && (n == 0 ==> r == [])
      && (n >= 1 ==> |r| == 2 * n - 1 && r[0] == PickOne && r[|r| - 1] == PickOne)
      && forall i :: 0 <= i < |r| ==> r[i] == if i % 2 == 0 then PickOne else PassNull
  {
    NormalizedAlternatingShape(n, PassNull);
  }

  /** defaultStepsForLength(n) is the same schedule with passes of amount 1. */
  lemma DefaultStepsForLengthShape(n: nat)
    ensures var r := DefaultStepsForLength(n);
      && (n == 0 ==> r == [])
      && (n >= 1 ==> |r| == 2 * n - 1 && r[0] == PickOne && r[|r| - 1] == PickOne)
      && forall i :: 0 <= i < |r| ==> r[i] == if i % 2 == 0 then PickOne else PassOne
  {
    NormalizedAlternatingShape(n, PassOne);
  }

  // ------------------------------------------------------------------ flatten

  /** `step.action === 'pass' ? 0 : step.amount || 0`, summed: the initial count of flattenSteps. */
  function NonPassTotal(steps: seq<DraftStep>): nat {
    if steps == [] then 0
    else (if steps[0].action == Pass then 0 else steps[0].amount.GetOr(0)) + NonPassTotal(steps[1..])
  }

  /** Number of non-pass unit entries one step expands into. */
  function PicksIn(s: DraftStep): nat {
    if s.action == Pass then 0 else if HasAmount(s) then s.amount.value else 1
  }

  /** The entries one step contributes, given the counters before it. */
  function Expand(s: DraftStep, pack: int, pick: int, cardsInPack: int): (r: seq<FlatStep>)
    ensures |r| >= 1
  {
    if HasAmount(s) then
      var a := s.amount.value;
      if s.action != Pass then
        seq(a, i requires 0 <= i < a => Unit(s.action, pick + i + 1, cardsInPack - (i + 1), Some(a - i), pack))
      else
        seq(a, i requires 0 <= i < a => Unit(Pass, pick, cardsInPack - 1, None, pack))
    else if s.action != Pass then [Unit(s.action, pick + 1, cardsInPack - 1, Some(1), pack)]
    else [Unit(Pass, pick, cardsInPack - 1, None, pack)]
  }

  /** The entries of `steps` given the counters before the first of them. */
  function FlattenFrom(steps: seq<DraftStep>, pack: int, pick: int, cardsInPack: int): seq<FlatStep>
  {
    if steps == [] then []
    else
      Expand(steps[0], pack, pick, cardsInPack)
        + FlattenFrom(steps[1..], pack, pick + PicksIn(steps[0]), cardsInPack - PicksIn(steps[0]))
  }

  /** What flattenSteps(steps, pack) returns. */
  function Flatten(steps: seq<DraftStep>, pack: int): seq<FlatStep> {
    FlattenFrom(steps, pack, 0, NonPassTotal(steps) + 1)
  }

  /** flattenSteps: the counting loop of the source. */
  method FlattenSteps(steps: seq<DraftStep>, pack: int) returns (res: seq<FlatStep>)
    ensures res == Flatten(steps, pack)
  {
    res := [];
    var pick := 0;
    var cardsInPack := NonPassTotal(steps) + 1;
    var k := 0;
    assert steps[k..] == steps;
    while k < |steps|
      invariant 0 <= k <= |steps|
      invariant res + FlattenFrom(steps[k..], pack, pick, cardsInPack) == Flatten(steps, pack)
    {
      FlattenFromAdvance(steps, k, pack, res, pick, cardsInPack);
      res, pick, cardsInPack := FlattenOne(res, steps[k], pack, pick, cardsInPack);
      k := k + 1;
    }
    assert steps[k..] == [];
  }

  /** One turn of flattenSteps' outer loop keeps `res + (entries of the remaining steps)` fixed. */
  lemma FlattenFromAdvance(steps: seq<DraftStep>, k: nat, pack: int, res: seq<FlatStep>, pick: int, cardsInPack: int)
    requires k < |steps|
    ensures res + FlattenFrom(steps[k..], pack, pick, cardsInPack)
      == (res + Expand(steps[k], pack, pick, cardsInPack))
         + FlattenFrom(steps[k + 1..], pack, pick + PicksIn(steps[k]), cardsInPack - PicksIn(steps[k]))
  {
    FlattenFromHead(steps[k..], pack, pick, cardsInPack);
    assert steps[k..][0] == steps[k] && steps[k..][1..] == steps[k + 1..];
  }

  lemma FlattenFromHead(steps: seq<DraftStep>, pack: int, pick: int, cardsInPack: int)
    requires steps != []
    ensures FlattenFrom(steps, pack, pick, cardsInPack)
      == Expand(steps[0], pack, pick, cardsInPack)
         + FlattenFrom(steps[1..], pack, pick + PicksIn(steps[0]), cardsInPack - PicksIn(steps[0]))
  {
  }

  /** The body of flattenSteps' outer loop: the entries of one step, appended to `res`. */
  method FlattenOne(res: seq<FlatStep>, step: DraftStep, pack: int, pick: int, cardsInPack: int)
    returns (res': seq<FlatStep>, pick': int, cardsInPack': int)
    ensures res' == res + Expand(step, pack, pick, cardsInPack)
    ensures pick' == pick + PicksIn(step) && cardsInPack' == cardsInPack - PicksIn(step)
  {
    res', pick', cardsInPack' := res, pick, cardsInPack;
    if HasAmount(step) {
      ghost var e := Expand(step, pack, pick, cardsInPack);
      var i := 0;
      while i < step.amount.value
        invariant 0 <= i <= step.amount.value
        invariant res' == res + e[..i]
        invariant pick' == pick + (if step.action != Pass then i else 0)
        invariant cardsInPack' == cardsInPack - (if step.action != Pass then i else 0)
      {
        if step.action != Pass {
          pick' := pick' + 1;
          cardsInPack' := cardsInPack' - 1;
          res' := res' + [Unit(step.action, pick', cardsInPack', Some(step.amount.value - i), pack)];
        } else {
          res' := res' + [Unit(step.action, pick', cardsInPack' - 1, None, pack)];
        }
        assert e[..i + 1] == e[..i] + [e[i]];
        i := i + 1;
      }
      assert e[..i] == e;
    } else if step.action != Pass {
      pick' := pick' + 1;
      cardsInPack' := cardsInPack' - 1;
      res' := res' + [Unit(step.action, pick', cardsInPack', Some(1), pack)];
    } else {
      res' := res' + [Unit(step.action, pick', cardsInPack' - 1, None, pack)];
    }
  }

  /** Non-pass entries among `r`. */
  function NonPassCount(r: seq<FlatStep>): nat {
    if r == [] then 0 else (if r[0].Act() != Pass then 1 else 0) + NonPassCount(r[1..])
  }

  lemma {:induction false} NonPassCountAppend(a: seq<FlatStep>, b: seq<FlatStep>)
    ensures NonPassCount(a + b) == NonPassCount(a) + NonPassCount(b)
  {
    if a == [] {
      assert a + b == b;
    } else {
      assert (a + b)[0] == a[0];
      assert (a + b)[1..] == a[1..] + b;
      NonPassCountAppend(a[1..], b);
    }
  }

  /** The entries of one expanded step: all units of that step's action and pack, with the counters before it advanced. */
  lemma ExpandCounters(s: DraftStep, pack: int, pick: int, cardsInPack: int)
    ensures var e := Expand(s, pack, pick, cardsInPack);
      forall j :: 0 <= j < |e| ==>
        && e[j].Unit? && e[j].pack == pack && e[j].action == s.action
        && e[j].pick == pick + (if s.action == Pass then 0 else j + 1)
        && e[j].cardsInPack == cardsInPack - (if s.action == Pass then 1 else j + 1)
  {
    var e := Expand(s, pack, pick, cardsInPack);
    if HasAmount(s) {
      var a := s.amount.value;
      if s.action != Pass {
        assert e == seq(a, i requires 0 <= i < a => Unit(s.action, pick + i + 1, cardsInPack - (i + 1), Some(a - i), pack));
      } else {
        assert e == seq(a, i requires 0 <= i < a => Unit(Pass, pick, cardsInPack - 1, None, pack));
      }
    }
  }

  lemma {:induction false} PrefixCount(e: seq<FlatStep>, j: nat, a: Action)
    requires j <= |e|
    requires forall i :: 0 <= i < |e| ==> e[i].Act() == a
    ensures NonPassCount(e[..j]) == if a == Pass then 0 else j
  {
    if j > 0 {
      PrefixCount(e, j - 1, a);
      assert e[..j] == e[..j - 1] + [e[j - 1]];
      NonPassCountAppend(e[..j - 1], [e[j - 1]]);
      assert [e[j - 1]][1..] == [];
    }
  }

  /** Entry j of `r` carries the counters that start from `pick` and `cardsInPack`. */
  predicate CountersAt(r: seq<FlatStep>, j: int, pack: int, pick: int, cardsInPack: int)
    requires 0 <= j < |r|
  {
    && r[j].Unit? && r[j].pack == pack
    && r[j].pick == pick + NonPassCount(r[..j + 1])
    && r[j].pick + r[j].cardsInPack == pick + cardsInPack - (if r[j].action == Pass then 1 else 0)
  }

  /**
   * The counters of flattenSteps: the pick counter of an entry is the number of
   * non-pass entries up to and including it (so it grows by one per non-pass
   * entry and repeats on passes), and pick + cardsInPack stays constant.
   */
  lemma {:induction false} FlattenFromCounters(steps: seq<DraftStep>, pack: int, pick: int, cardsInPack: int)
    ensures var r := FlattenFrom(steps, pack, pick, cardsInPack);
      forall j :: 0 <= j < |r| ==> CountersAt(r, j, pack, pick, cardsInPack)
  {
    if steps != [] {
      var s := steps[0];
      var e := Expand(s, pack, pick, cardsInPack);
      var rest := FlattenFrom(steps[1..], pack, pick + PicksIn(s), cardsInPack - PicksIn(s));
      var r := e + rest;
      assert r == FlattenFrom(steps, pack, pick, cardsInPack);
      ExpandNonPass(s, pack, pick, cardsInPack);
      forall j | 0 <= j < |r|
        ensures CountersAt(r, j, pack, pick, cardsInPack)
      {
        if j < |e| {
          CountersInHead(s, pack, pick, cardsInPack, rest, j);
        } else {
          var pick', cardsInPack' := pick + PicksIn(s), cardsInPack - PicksIn(s);
          FlattenFromCounters(steps[1..], pack, pick', cardsInPack');
          assert rest == FlattenFrom(steps[1..], pack, pick', cardsInPack');
          assert 0 <= j - |e| < |rest|;
          assert CountersAt(rest, j - |e|, pack, pick', cardsInPack');
          CountersInTail(e, rest, j - |e|, pack, pick, cardsInPack);
        }
      }
    }
  }

  /** One expanded step holds as many non-pass entries as it picks. */
  lemma ExpandNonPass(s: DraftStep, pack: int, pick: int, cardsInPack: int)
    ensures NonPassCount(Expand(s, pack, pick, cardsInPack)) == PicksIn(s)
  {
    var e := Expand(s, pack, pick, cardsInPack);
    ExpandCounters(s, pack, pick, cardsInPack);
    PrefixCount(e, |e|, s.action);
    assert e[..|e|] == e;
  }

  /** An entry of the first expanded step carries the counters from the start. */
  lemma CountersInHead(s: DraftStep, pack: int, pick: int, cardsInPack: int, rest: seq<FlatStep>, j: nat)
    requires j < |Expand(s, pack, pick, cardsInPack)|
    ensures CountersAt(Expand(s, pack, pick, cardsInPack) + rest, j, pack, pick, cardsInPack)
  {
    var e := Expand(s, pack, pick, cardsInPack);
    var r := e + rest;
    ExpandCounters(s, pack, pick, cardsInPack);
    assert r[j] == e[j];
    assert r[..j + 1] == e[..j + 1];
    PrefixCount(e, j + 1, s.action);
  }

  /** An entry after the first expanded step carries the counters advanced past it. */
  lemma CountersInTail(e: seq<FlatStep>, rest: seq<FlatStep>, j: nat, pack: int, pick: int, cardsInPack: int)
    requires j < |rest|
    requires CountersAt(rest, j, pack, pick + NonPassCount(e), cardsInPack - NonPassCount(e))
    ensures CountersAt(e + rest, |e| + j, pack, pick, cardsInPack)
  {
    var r := e + rest;
    assert r[|e| + j] == rest[j];
    assert r[..|e| + j + 1] == e + rest[..j + 1];
    NonPassCountAppend(e, rest[..j + 1]);
  }

  /** flattenSteps counters, stated on its result: T is the sum of the non-pass amounts. */
  lemma FlattenCounters(steps: seq<DraftStep>, pack: int)
    ensures var r := Flatten(steps, pack);
      var t := NonPassTotal(steps);
      forall j :: 0 <= j < |r| ==>
        && r[j].Unit? && r[j].pack == pack
        && r[j].pick == NonPassCount(r[..j + 1])
        && (r[j].action != Pass ==> r[j].pick + r[j].cardsInPack == t + 1)
        && (r[j].action == Pass ==> r[j].pick + r[j].cardsInPack == t)
  {
    var start := NonPassTotal(steps) + 1;
    FlattenFromCounters(steps, pack, 0, start);
    var r := FlattenFrom(steps, pack, 0, start);
    assert r == Flatten(steps, pack);
    forall j | 0 <= j < |r|
      ensures && r[j].Unit? && r[j].pack == pack
              && r[j].pick == NonPassCount(r[..j + 1])
              && (r[j].action != Pass ==> r[j].pick + r[j].cardsInPack == start)
              && (r[j].action == Pass ==> r[j].pick + r[j].cardsInPack == start - 1)
    {
      assert CountersAt(FlattenFrom(steps, pack, 0, start), j, pack, 0, start);
    }
  }

  // ---------------------------------------------------------------- step list

  /** A pack of the pre-dealt `InitialState`: its card indices and its steps (`null` for the default). */
  datatype InitialPack = InitialPack(cards: seq<int>, steps: Option<seq<DraftStep>>)

  /** `pack.steps || defaultStepsForLength(pack.cards.length)`. */
  function PackSteps(p: InitialPack): seq<DraftStep> {
    if p.steps.Some? then p.steps.value else DefaultStepsForLength(|p.cards|)
  }

  /** The step list of packs `packs`, the first of which has 0-based index `first`. */
  function StepListFrom(packs: seq<InitialPack>, first: int): seq<FlatStep>
  {
    if packs == [] then []
    else Flatten(PackSteps(packs[0]), first) + [EndOfPack(first + 1)] + StepListFrom(packs[1..], first + 1)
  }

  /** getStepList: seat 0's packs, flattened, each followed by an endpack marker numbered from 1. */
  function GetStepList(initialState: seq<seq<InitialPack>>): seq<FlatStep>
    requires |initialState| > 0
  {
    StepListFrom(initialState[0], 0)
  }

  /**
   * Units of pack k carry the 0-based index k, its endpack marker carries k + 1:
   * every unit names an existing pack and every marker one of 1..|packs|.
   */
  lemma {:induction false} StepListFromPackRange(packs: seq<InitialPack>, first: int)
    ensures var r := StepListFrom(packs, first);
      && NonEndCount(r) + |packs| == |r|
      && forall j :: 0 <= j < |r| ==>
           (r[j].Unit? ==> first <= r[j].pack < first + |packs|)
           && (r[j].EndOfPack? ==> first < r[j].pack <= first + |packs|)
  {
    if packs != [] {
      var f := Flatten(PackSteps(packs[0]), first);
      var rest := StepListFrom(packs[1..], first + 1);
      StepListFromPackRange(packs[1..], first + 1);
      FlattenCounters(PackSteps(packs[0]), first);
      NonEndCountAppend(f + [EndOfPack(first + 1)], rest);
      NonEndCountAppend(f, [EndOfPack(first + 1)]);
      AllUnits(f);
    }
  }

  /** Entries of `r` other than endpack markers. */
  function NonEndCount(r: seq<FlatStep>): nat {
    if r == [] then 0 else (if r[0].Unit? then 1 else 0) + NonEndCount(r[1..])
  }

  lemma {:induction false} NonEndCountAppend(a: seq<FlatStep>, b: seq<FlatStep>)
    ensures NonEndCount(a + b) == NonEndCount(a) + NonEndCount(b)
  {
    if a == [] {
      assert a + b == b;
    } else {
      assert (a + b)[0] == a[0];
      assert (a + b)[1..] == a[1..] + b;
      NonEndCountAppend(a[1..], b);
    }
  }

  lemma {:induction false} AllUnits(a: seq<FlatStep>)
    requires forall j :: 0 <= j < |a| ==> a[j].Unit?
    ensures NonEndCount(a) == |a|
  {
    if a != [] {
      AllUnits(a[1..]);
    }
  }

  /** The step list has one endpack marker per pack, numbered 1..P; every unit names a pack 0..P-1. */
  lemma GetStepListPacks(initialState: seq<seq<InitialPack>>)
    requires |initialState| > 0
    ensures var r := GetStepList(initialState);
      var p := |initialState[0]|;
      && |r| - NonEndCount(r) == p
      && forall j :: 0 <= j < |r| ==>
           (r[j].Unit? ==> 0 <= r[j].pack < p) && (r[j].EndOfPack? ==> 1 <= r[j].pack <= p)
  {
    StepListFromPackRange(initialState[0], 0);
  }

  // -------------------------------------------------------------------- title

  /** How many steps at the head of `steps` have action `a`. */
  function LeadingRun(steps: seq<DraftStep>, a: Action): (c: nat)
    ensures c <= |steps|
  {
    if steps == [] || steps[0].action != a then 0 else 1 + LeadingRun(steps[1..], a)
  }

  /** LeadingRun is the length of the longest prefix whose steps all have action `a`. */
  lemma {:induction false} LeadingRunIsMaximal(steps: seq<DraftStep>, a: Action)
    ensures var c := LeadingRun(steps, a);
      && (forall j :: 0 <= j < c ==> steps[j].action == a)
      && (c == |steps| || steps[c].action != a)
  {
    if steps != [] && steps[0].action == a {
      LeadingRunIsMaximal(steps[1..], a);
    }
  }

  function CountTitle(verb: string, count: nat): string {
    if count > 1 then verb + " " + NatToString(count) + " more cards" else verb + " one more card"
  }

  /** The heading stepListToTitle shows for the remaining queue. */
  function StepListTitle(steps: seq<DraftStep>): string {
    if |steps| <= 1 then "Finishing up draft..."
    else if steps[0].action == Pick then CountTitle("Pick", LeadingRun(steps, Pick))
    else if steps[0].action == Trash then CountTitle("Trash", LeadingRun(steps, Trash))
    else if steps[0].action == EndPack then "Waiting for next pack to open..."
    else "Making random selection..."
  }

  /** stepListToTitle, counting the leading run with its while loop. */
  method StepListToTitle(steps: seq<DraftStep>) returns (title: string)
    ensures title == StepListTitle(steps)
  {
    if |steps| <= 1 {
      return "Finishing up draft...";
    }
    if steps[0].action == Pick || steps[0].action == Trash {
      var a := steps[0].action;
      var count := CountLeadingRun(steps, a);
      return CountTitle(if a == Pick then "Pick" else "Trash", count);
    }
    if steps[0].action == EndPack {
      return "Waiting for next pack to open...";
    }
    return "Making random selection...";
  }

  /** stepListToTitle's while loop: how many steps in a row, from the first, have action `a`. */
  method CountLeadingRun(steps: seq<DraftStep>, a: Action) returns (count: nat)
    requires |steps| > 0 && steps[0].action == a
    ensures count == LeadingRun(steps, a)
  {
    count := 1;
    while |steps| > count && steps[count].action == a
      invariant 1 <= count <= |steps|
      invariant LeadingRun(steps, a) == count + LeadingRun(steps[count..], a)
    {
      assert steps[count..][1..] == steps[count + 1..];
      count := count + 1;
    }
  }
}
