/**
 * Draft formats: validation (getErrorsInFormat), step normalization of every
 * pack (normalizeDraftFormatSteps) and the standard format
 * (createDefaultDraftFormat), from src/util/draftutil.ts.
 */
module DraftFormats {
  import opened Wrappers
  import opened Strings
  import opened DraftSteps

  /** A pack of a format: its slot filters and its steps (`null` means the default steps). */
  datatype FormatPack = FormatPack(slots: seq<string>, steps: Option<seq<DraftStep>>)

  /**
   * `defaultSeats`: absent, a finite number, an infinity, or NaN.
   */
  datatype SeatCount = Unset | Num(x: real) | Infinite(positive: bool) | NotANumber

  /** A format object; `packs` is None when the property is missing. */
  class DraftFormat {
    var title: string
    var packs: Option<seq<FormatPack>>
    var multiples: bool
    var markdown: string
    var defaultSeats: SeatCount

    constructor (title: string, packs: Option<seq<FormatPack>>, multiples: bool, markdown: string, defaultSeats: SeatCount)
      ensures this.title == title && this.packs == packs && this.multiples == multiples
      ensures this.markdown == markdown && this.defaultSeats == defaultSeats
    {
      this.title := title;
      this.packs := packs;
      this.multiples := multiples;
      this.markdown := markdown;
      this.defaultSeats := defaultSeats;
    }
  }

  // ----------------------------------------------------------------- messages

  /** The checks of getErrorsInFormat that can fail; `pack` is the 0-based pack index. */
  datatype FormatError =
    | InternalError
    | EmptyTitle
    | NoPacks
    | SeatsNotNumber
    | SeatsOutOfRange
    | EndsWithPassError(pack: nat)
    | SlotMismatch(pack: nat, slots: nat, amount: nat)

  /** The message text pushed for each failed check. */
  function Message(e: FormatError): string {
    match e
    case InternalError => "Internal error in the format."
    case EmptyTitle => "title must not be empty."
    case NoPacks => "Format must have at least 1 pack."
    case SeatsNotNumber => "Default seat count must be a number."
    case SeatsOutOfRange => "Default seat count must be between 2 and 16."
    case EndsWithPassError(i) => "Pack " + NatToString(i + 1) + " cannot end with a pass action."
    case SlotMismatch(i, slots, amount) =>
      "Pack " + NatToString(i + 1) + " has " + NatToString(slots)
        + " slots but has steps to pick or trash " + NatToString(amount) + " cards."
  }

  function Messages(es: seq<FormatError>): (r: seq<string>)
    ensures |r| == |es| && forall i :: 0 <= i < |es| ==> r[i] == Message(es[i])
  {
    seq(|es|, i requires 0 <= i < |es| => Message(es[i]))
  }

  lemma MessagesAppend(a: seq<FormatError>, b: seq<FormatError>)
    ensures Messages(a + b) == Messages(a) + Messages(b)
  {
  }

  // --------------------------------------------------------------- validation

  /** Cards the steps pick or trash: passes count 0, a `null` amount counts 1. */
  function SlotsClaimed(steps: seq<DraftStep>): nat {
    if steps == [] then 0
    else
      var last := steps[|steps| - 1];
      SlotsClaimed(steps[..|steps| - 1]) + (if last.action == Pass then 0 else last.amount.GetOr(1))
  }

  predicate EndsWithPass(steps: seq<DraftStep>) {
    |steps| > 0 && steps[|steps| - 1].action == Pass
  }

  /** The failures for `defaultSeats`: not finite, then out of [2, 16] (an infinity is both). */
  function SeatErrors(s: SeatCount): seq<FormatError> {
    (if s.Infinite? || s.NotANumber? then [SeatsNotNumber] else [])
      + (if s.Infinite? || (s.Num? && (s.x < 2.0 || s.x > 16.0)) then [SeatsOutOfRange] else [])
  }

  /** The failures of pack number `i` (0-based). */
  function PackErrors(i: nat, p: FormatPack): seq<FormatError> {
    if p.steps.None? then []
    else
      var steps := p.steps.value;
      (if EndsWithPass(steps) then [EndsWithPassError(i)] else [])
        + (if SlotsClaimed(steps) != |p.slots| then [SlotMismatch(i, |p.slots|, SlotsClaimed(steps))] else [])
  }

  /** The failures of packs 0 .. |packs|-1, in pack order. */
  function PacksErrors(packs: seq<FormatPack>): seq<FormatError> {
    if packs == [] then []
    else PacksErrors(packs[..|packs| - 1]) + PackErrors(|packs| - 1, packs[|packs| - 1])
  }

  /** All failures of a format whose packs are present, in the order they are checked. */
  function ValueErrors(title: string, packs: seq<FormatPack>, seats: SeatCount): seq<FormatError> {
    (if IsBlank(title) then [EmptyTitle] else [])
      + (if |packs| == 0 then [NoPacks] else [])
      + SeatErrors(seats)
      + PacksErrors(packs)
  }

  /** The failures of a format, in order; a missing format or missing packs is the internal error alone. */
  function FormatErrors(format: DraftFormat?): seq<FormatError>
    reads format
  {
    if format == null || format.packs.None? then [InternalError]
    else ValueErrors(format.title, format.packs.value, format.defaultSeats)
  }

  /** getErrorsInFormat's result: None when there is nothing to report, else the messages. */
  function Errors(format: DraftFormat?): Option<seq<string>>
    reads format
  {
    var e := FormatErrors(format);
    if e == [] then None else Some(Messages(e))
  }

  /**
   * getErrorsInFormat: record a failure per failed check, pack by pack, and
   * answer with their messages (null when there are none).
   */
  method GetErrorsInFormat(format: DraftFormat?) returns (r: Option<seq<string>>)
    ensures r == Errors(format)
  {
    if format == null || format.packs.None? {
      return Some(Messages([InternalError]));
    }
    var failed := CollectFailures(format.title, format.packs.value, format.defaultSeats);
    r := if failed == [] then None else Some(Messages(failed));
  }

  /** getErrorsInFormat's checks of a format whose packs are present, in order. */
  method CollectFailures(title: string, packs: seq<FormatPack>, seats: SeatCount) returns (failed: seq<FormatError>)
    ensures failed == ValueErrors(title, packs, seats)
  {
    failed := [];
    if IsBlank(title) {
      failed := failed + [EmptyTitle];
    }
    if |packs| == 0 {
      failed := failed + [NoPacks];
    }
    assert failed == (if IsBlank(title) then [EmptyTitle] else []) + (if |packs| == 0 then [NoPacks] else []);
    failed := failed + SeatErrors(seats);
    failed := CollectPackErrors(packs, failed);
  }

  /** getErrorsInFormat's loop over the packs, appending to `failed`. */
  method CollectPackErrors(packs: seq<FormatPack>, failed: seq<FormatError>) returns (res: seq<FormatError>)
    ensures res == failed + PacksErrors(packs)
  {
    res := failed;
    var i := 0;
    while i < |packs|
      invariant 0 <= i <= |packs|
      invariant res == failed + PacksErrors(packs[..i])
    {
      var e := CheckPack(i, packs[i]);
      PacksErrorsSnoc(failed, packs, i, res);
      res := res + e;
      i := i + 1;
    }
    assert packs[..|packs|] == packs;
  }

  lemma PacksErrorsSnoc(failed: seq<FormatError>, packs: seq<FormatPack>, i: nat, res: seq<FormatError>)
    requires i < |packs| && res == failed + PacksErrors(packs[..i])
    ensures res + PackErrors(i, packs[i]) == failed + PacksErrors(packs[..i + 1])
  {
    assert packs[..i + 1][..i] == packs[..i];
  }

  /** The body of getErrorsInFormat's pack loop: a pass at the end, then the slot count. */
  method CheckPack(i: nat, pack: FormatPack) returns (e: seq<FormatError>)
    ensures e == PackErrors(i, pack)
  {
    e := [];
    if pack.steps.Some? {
      var steps := pack.steps.value;
      if EndsWithPass(steps) {
        e := e + [EndsWithPassError(i)];
      }
      var amount := ClaimedBySteps(steps);
      if amount != |pack.slots| {
        e := e + [SlotMismatch(i, |pack.slots|, amount)];
      }
    }
  }

  /** The amount loop of getErrorsInFormat. */
  method ClaimedBySteps(steps: seq<DraftStep>) returns (amount: nat)
    ensures amount == SlotsClaimed(steps)
  {
    amount := 0;
    var k := 0;
    while k < |steps|
      invariant 0 <= k <= |steps|
      invariant amount == SlotsClaimed(steps[..k])
    {
      assert steps[..k + 1][..k] == steps[..k];
      var step := steps[k];
      if step.action != Pass {
        amount := amount + step.amount.GetOr(1);
      }
      k := k + 1;
    }
    assert steps[..|steps|] == steps;
  }

  /** A pack passes validation: default steps, or steps not ending in a pass that claim exactly its slots. */
  predicate PackOk(p: FormatPack) {
    p.steps.None? || (!EndsWithPass(p.steps.value) && SlotsClaimed(p.steps.value) == |p.slots|)
  }

  lemma PackErrorsEmptyIff(i: nat, p: FormatPack)
    ensures PackErrors(i, p) == [] <==> PackOk(p)
  {
  }

  /** Pack messages are empty exactly when every pack is acceptable; each pack adds at most two. */
  lemma {:induction false} PacksErrorsEmptyIff(packs: seq<FormatPack>)
    ensures PacksErrors(packs) == [] <==> forall i :: 0 <= i < |packs| ==> PackOk(packs[i])
    ensures |PacksErrors(packs)| <= 2 * |packs|
  {
    if packs != [] {
      var n := |packs| - 1;
      PacksErrorsEmptyIff(packs[..n]);
      PackErrorsEmptyIff(n, packs[n]);
      assert forall i :: 0 <= i < n ==> packs[..n][i] == packs[i];
    }
  }

  /** Seat counts accepted without a message: absent, or a finite number in [2, 16]. */
  predicate SeatsOk(s: SeatCount) {
    s.Unset? || (s.Num? && 2.0 <= s.x <= 16.0)
  }

  /** getErrorsInFormat returns null exactly when every check passes. */
  lemma NoErrorsIff(format: DraftFormat?)
    ensures Errors(format) == None <==> FormatErrors(format) == []
    ensures FormatErrors(format) == [] <==>
      && format != null && format.packs.Some?
      && !IsBlank(format.title)
      && |format.packs.value| > 0
      && SeatsOk(format.defaultSeats)
      && forall i :: 0 <= i < |format.packs.value| ==> PackOk(format.packs.value[i])
  {
    if format != null && format.packs.Some? {
      PacksErrorsEmptyIff(format.packs.value);
    }
  }

  /** A missing format or missing packs yields the internal error and nothing else. */
  lemma MissingPacksIsInternalError(format: DraftFormat?)
    requires format == null || format.packs.None?
    ensures Errors(format) == Some([Message(InternalError)])
  {
    assert Messages([InternalError]) == [Message(InternalError)];
  }

  /** An infinite seat count draws both seat messages, NaN only the first. */
  lemma SeatMessages(s: SeatCount)
    ensures s.Infinite? ==> SeatErrors(s) == [SeatsNotNumber, SeatsOutOfRange]
    ensures s.NotANumber? ==> SeatErrors(s) == [SeatsNotNumber]
    ensures s.Num? ==> (SeatErrors(s) == [] <==> 2.0 <= s.x <= 16.0)
  {
  }

  // ---------------------------------------------------------- normalization

  /** normalizeDraftSteps applied to a pack's steps, unless they are `null`. */
  function NormalizePack(p: FormatPack): FormatPack {
    if p.steps.None? then p else FormatPack(p.slots, Some(NormalizeDraftSteps(p.steps.value)))
  }

  function NormalizePacks(packs: seq<FormatPack>): (r: seq<FormatPack>)
    ensures |r| == |packs| && forall i :: 0 <= i < |packs| ==> r[i] == NormalizePack(packs[i])
  {
    seq(|packs|, i requires 0 <= i < |packs| => NormalizePack(packs[i]))
  }

  /** normalizeDraftFormatSteps: normalize each pack's steps in place. */
  method NormalizeDraftFormatSteps(format: DraftFormat)
    requires format.packs.Some?
    modifies format
    ensures format.packs == Some(NormalizePacks(old(format.packs).value))
    ensures format.title == old(format.title) && format.defaultSeats == old(format.defaultSeats)
    ensures format.multiples == old(format.multiples) && format.markdown == old(format.markdown)
  {
    var packNum := 0;
    ghost var original := format.packs.value;
    while packNum < |format.packs.value|
      invariant format.packs.Some? && |format.packs.value| == |original|
      invariant 0 <= packNum <= |original|
      invariant forall i :: 0 <= i < packNum ==> format.packs.value[i] == NormalizePack(original[i])
      invariant forall i :: packNum <= i < |original| ==> format.packs.value[i] == original[i]
      invariant format.title == old(format.title) && format.defaultSeats == old(format.defaultSeats)
      invariant format.multiples == old(format.multiples) && format.markdown == old(format.markdown)
    {
      var pack := format.packs.value[packNum];
      if pack.steps.Some? {
        format.packs := Some(format.packs.value[packNum := FormatPack(pack.slots, Some(NormalizeDraftSteps(pack.steps.value)))]);
      }
      packNum := packNum + 1;
    }
    assert format.packs.value == NormalizePacks(original);
  }

  /** Dropping a trailing pass does not change how many cards the steps claim. */
  lemma NormalizeKeepsSlotsClaimed(steps: seq<DraftStep>)
    ensures SlotsClaimed(NormalizeDraftSteps(steps)) == SlotsClaimed(steps)
  {
  }

  /**
   * Normalizing a pack removes its "ends with a pass" message unless it ends
   * with two passes, and never changes whether the slot count matches.
   */
  lemma NormalizePackErrors(i: nat, p: FormatPack)
    requires p.steps.Some?
    requires !(|p.steps.value| >= 2 && p.steps.value[|p.steps.value| - 1].action == Pass
               && p.steps.value[|p.steps.value| - 2].action == Pass)
    ensures PackOk(NormalizePack(p)) <==> SlotsClaimed(p.steps.value) == |p.slots|
  {
    NormalizeKeepsSlotsClaimed(p.steps.value);
  }

  // --------------------------------------------------------- default format

  /** The packs of createDefaultDraftFormat: `cardsPerPack` '*' slots and buildDefaultSteps each. */
  function DefaultPacks(packsPerPlayer: nat, cardsPerPack: nat): seq<FormatPack> {
    seq(packsPerPlayer, _ => FormatPack(seq(cardsPerPack, _ => "*"), Some(BuildDefaultSteps(cardsPerPack))))
  }

  /** createDefaultDraftFormat. */
  method CreateDefaultDraftFormat(packsPerPlayer: nat, cardsPerPack: nat) returns (format: DraftFormat)
    ensures fresh(format)
    ensures format.title == "Standard Draft" && format.packs == Some(DefaultPacks(packsPerPlayer, cardsPerPack))
    ensures !format.multiples && format.markdown == "" && format.defaultSeats == Num(8.0)
  {
    format := new DraftFormat("Standard Draft", Some(DefaultPacks(packsPerPlayer, cardsPerPack)), false, "", Num(8.0));
  }

  /** Prefixes of the pick/null-pass alternation claim one card per pick. */
  lemma {:induction false} AlternatingClaimed(r: seq<DraftStep>, k: nat)
    requires k <= |r|
    requires forall i :: 0 <= i < |r| ==> r[i] == if i % 2 == 0 then PickOne else PassNull
    ensures SlotsClaimed(r[..k]) == (k + 1) / 2
  {
    if k > 0 {
      AlternatingClaimed(r, k - 1);
      assert r[..k][..k - 1] == r[..k - 1];
    }
  }

  /** buildDefaultSteps(n) claims exactly n cards and does not end with a pass. */
  lemma BuildDefaultStepsValid(n: nat)
    ensures SlotsClaimed(BuildDefaultSteps(n)) == n
    ensures !EndsWithPass(BuildDefaultSteps(n))
  {
    BuildDefaultStepsShape(n);
    var r := BuildDefaultSteps(n);
    AlternatingClaimed(r, |r|);
    assert r[..|r|] == r;
  }

  /** The standard format passes validation whenever it has at least one pack. */
  lemma DefaultFormatValid(packsPerPlayer: nat, cardsPerPack: nat)
    ensures var e := ValueErrors("Standard Draft", DefaultPacks(packsPerPlayer, cardsPerPack), Num(8.0));
      && (packsPerPlayer > 0 ==> e == [])
      && (packsPerPlayer == 0 ==> e == [NoPacks])
  {
    var packs := DefaultPacks(packsPerPlayer, cardsPerPack);
    BuildDefaultStepsValid(cardsPerPack);
    PacksErrorsEmptyIff(packs);
    assert !IsBlank("Standard Draft") by {
      assert "Standard Draft"[0] == 'S';
    }
  }
}
