# CubeCobra draft core, modelled in Dafny

This project models the drafting core of CubeCobra, a site for building Magic: The Gathering cubes and drafting them.

- **Draft formats.** A draft format is a list of packs. Each pack has card slots and a schedule of steps: `pick`, `pass`, `trash`, `pickrandom`, `trashrandom` and `endpack`, each with an optional amount. `src/util/draftutil.ts` normalizes, validates, flattens and titles these schedules. It also builds the default format. Two more functions build the starting table and replay a finished draft for one seat (`getDrafterState`).
- **The client draft page.** The human sits at seat 0 and bots fill the other seats. One call of `makePick` moves the whole table: the human's pick, the bots' picks from the prediction service's ratings, the passing of packs, and the opening of the next pack (`src/client/pages/CubeDraftPage.tsx`).
- **The finish route.** It checks the submitted body's shape, then stores every seat's picks and builds a deck for every bot seat (`src/router/routes/draft/finish.ts`).
- **The deck upload of a draft record.** It creates a new draft or updates an existing one, and refuses to overwrite a deck (`src/router/routes/cube/records/uploaddeck.ts`).
- **The card-link markdown extension.** It reads the `!` and `/` markers off a card reference and splits off its name and id (`src/client/markdown/cardlink/index.js`).

Modules:

| file | module | contents |
|---|---|---|
| wrappers.dfy | Wrappers | `Option` |
| strings.dfy | Strings | decimal rendering, ASCII lower case, substring search, blank test |
| draft_steps.dfy | DraftSteps | step datatypes, normalizeDraftSteps, default schedules, flattenSteps, getStepList, stepListToTitle |
| deck_grid.dfy | DeckGrid | card rows and columns, setupPicks, getDefaultPosition, pushing into a deck grid and flattening it |
| draft_format.dfy | DraftFormats | the `DraftFormat` class, getErrorsInFormat, normalizeDraftFormatSteps, createDefaultDraftFormat |
| initial_state.dfy | InitialStates | draftutil's getInitialState and the page's own variant, and how the two differ |
| drafter_replay.dfy | DrafterReplay | getDrafterState: the per-seat pick lists and the replay loop |
| cube_draft_page.dfy | CubeDraftPage | the `DraftPage` class: makePick, getPredictions, processPredictions, packTitle |
| finish.dfy | FinishDraft | the body schema as a JSON decoder, the bot deck builder, the `DraftRecord` handler |
| upload_deck.dfy | UploadDeck | the card selection, associateNewDraft, associateWithExistingDraft, the handler's guard |
| card_link.dfy | CardLink | `split`, the name/id split, the `CardLinkNode` class and oncard |

How the code is modelled:

- **Loops become methods.** Each method is proved equal to a recursive specification function. The source's promises are then proved as lemmas about that function.
- **State the source updates in place becomes a class:**
  - the draft page;
  - a draft format under normalization;
  - the stored draft in the finish and upload routes;
  - a record entry;
  - a markdown node.
- **Inputs the code cannot compute stand in for the outside world:**
  - the prediction service's answer;
  - `Math.random()` results;
  - the deck builder;
  - the card database lookups;
  - the id a new draft is stored under.

## Model

Source paths are relative to the repository root.

| member | source | states |
|---|---|---|
| DraftSteps.NormalizeRemovesOnlyTrailingPass | src/util/draftutil.ts:317-329 | Normalizing gives a prefix of the steps. The result is one step shorter exactly when the last step is a pass, and it is unchanged when the last step is not a pass. An empty schedule stays empty. |
| DraftSteps.NormalizeNotIdempotent | src/util/draftutil.ts:317-329 | Only one trailing pass is removed: with two trailing passes, a second normalization changes the result again. |
| DraftSteps.NormalizeIdempotentWithoutDoublePass | src/util/draftutil.ts:317-329 | Without two trailing passes, normalizing twice is the same as normalizing once. |
| DraftSteps.Alternating | src/util/draftutil.ts:87-92 | `new Array(n).fill([a, b]).flat()` has 2n entries: a at even positions, b at odd ones. |
| DraftSteps.NormalizedAlternatingShape | src/util/draftutil.ts:86-99 | A normalized alternation of n pick/pass pairs has 2n-1 steps. It starts and ends with a pick and alternates throughout. |
| DraftSteps.BuildDefaultStepsShape | src/util/draftutil.ts:384-395 | buildDefaultSteps(n) is 2n-1 steps alternating `{pick, 1}` and `{pass, null}`, starting and ending with a pick. It is empty for n = 0. |
| DraftSteps.DefaultStepsForLengthShape | src/util/draftutil.ts:86-99 | defaultStepsForLength(n) is the same schedule with passes of amount 1. |
| DraftSteps.FlattenSteps | src/util/draftutil.ts:35-84 | The counting loop produces exactly the specification's flattened list. |
| DraftSteps.FlattenOne | src/util/draftutil.ts:40-82 | One turn of the outer loop appends exactly the entries of that step. |
| DraftSteps.ExpandCounters | src/util/draftutil.ts:40-82 | Every entry of one step carries that step's action and pack, and the counters before it advanced per non-pass entry. |
| DraftSteps.FlattenFromCounters | src/util/draftutil.ts:35-84 | Entry j's pick number is the count of non-pass entries up to and including it. pick + cardsInPack is the starting total on non-pass entries and one less on passes. |
| DraftSteps.FlattenCounters | src/util/draftutil.ts:35-84 | The same counter facts for the whole flattened list, where the starting total is the sum of the non-pass amounts. |
| DraftSteps.StepListFromPackRange | src/util/draftutil.ts:101-110 | The units of pack k carry the 0-based index k, and its endpack marker carries k + 1. |
| DraftSteps.GetStepListPacks | src/util/draftutil.ts:101-110 | The step list has one endpack marker per pack of seat 0, numbered 1..P. Every unit names a pack 0..P-1. |
| DraftSteps.LeadingRunIsMaximal | src/util/draftutil.ts:260-279 | The counted run is the longest prefix of steps with that action. |
| DraftSteps.StepListToTitle | src/util/draftutil.ts:255-285 | The while loop computes the title of the remaining queue. The title reports the length of the maximal leading pick or trash run, in singular or plural. |
| DraftSteps.CountLeadingRun | src/util/draftutil.ts:261-264 | The while loop counts the maximal run of steps, from the first, that share its action. |
| DeckGrid.ClampColumn | src/util/draftutil.ts:250 | The column is in 0..7: the value itself when it is in range, 0 below the range, 7 above it. |
| DeckGrid.GetCardDefaultRowColumn | src/util/draftutil.ts:244-253 | The row is 0 exactly for creatures and 1 otherwise. The column is the cmc column clamped to 0..7. |
| DeckGrid.GetCardCol | src/util/draftutil.ts:287-288 | The card's cmc clamped to [0, 7], with fractions kept. |
| DeckGrid.SetupPicks | src/util/draftutil.ts:290-300 | The result has `rows` rows of `cols` empty cells. |
| DeckGrid.GetDefaultPosition | src/util/draftutil.ts:238-242 | The card's default cell, and the position at the end of that cell's current list; only that cell has to exist. |
| DeckGrid.InCellMembers | src/router/routes/draft/finish.ts:135-140 | A cell's list holds exactly the indices whose placements aim at that cell. |
| DeckGrid.InCellIncreasing | src/router/routes/cube/records/uploaddeck.ts:89-90 | Placements with strictly increasing indices fill every cell in strictly increasing order, so no index repeats. |
| DeckGrid.PlacedCells | src/router/routes/draft/finish.ts:135-149 | After the pushes, every cell is its old list followed by the indices aimed at it, in push order. |
| DeckGrid.PlacedFromEmpty | src/router/routes/draft/finish.ts:132-149 | Pushing into a fresh grid: each cell holds exactly the indices aimed at it, in push order. |
| DeckGrid.FlatGridMembers | src/router/routes/cube/records/uploaddeck.ts:219 | `flat(3)` holds exactly the indices found in some cell. |
| DeckGrid.FlatGridEmpty | src/router/routes/cube/records/uploaddeck.ts:219 | A board flattens to nothing exactly when every cell is empty. |
| DraftFormats.DraftFormat.constructor | src/util/draftutil.ts:397-408 | A format object holds the given title, packs, multiples flag, markdown and default seat count. |
| DraftFormats.Messages | src/util/draftutil.ts:331-382 | One message per failure, in order, each rendered with the source's wording. |
| DraftFormats.MessagesAppend | src/util/draftutil.ts:331-382 | The messages of two failure lists are the messages of each, concatenated. |
| DraftFormats.GetErrorsInFormat | src/util/draftutil.ts:331-382 | The pushing loops compute exactly the specified failure messages, or null when there are none. |
| DraftFormats.CollectFailures | src/util/draftutil.ts:332-380 | With the packs present, the checks yield the title, pack-count, seat-count and per-pack failures, in that order. |
| DraftFormats.CollectPackErrors | src/util/draftutil.ts:343-380 | The pack loop appends the failures of every pack, in pack order. |
| DraftFormats.CheckPack | src/util/draftutil.ts:344-379 | One pack yields its "ends with a pass" failure and its slot-count failure, each only when it applies. A pack with null steps yields nothing. |
| DraftFormats.ClaimedBySteps | src/util/draftutil.ts:359-375 | The amount loop counts the cards the non-pass steps claim, with a null amount claiming one. |
| DraftFormats.PacksErrorsEmptyIff | src/util/draftutil.ts:343-380 | Pack messages are empty exactly when every pack is acceptable. Each pack adds at most two. |
| DraftFormats.NoErrorsIff | src/util/draftutil.ts:331-382 | The result is null exactly when all of the following hold: the format and its packs exist, the title is not blank, there is a pack, the seat count is acceptable, and every pack's steps end without a pass and claim its slot count. |
| DraftFormats.MissingPacksIsInternalError | src/util/draftutil.ts:333 | A missing format or missing packs yields the internal-error message alone. |
| DraftFormats.SeatMessages | src/util/draftutil.ts:337-341 | An infinite seat count draws both seat messages and NaN only the first. A finite count draws none exactly when it lies in [2, 16]. |
| DraftFormats.NormalizePacks | src/util/draftutil.ts:302-315 | Every pack keeps its slots. Its steps are normalized, and null steps stay null. |
| DraftFormats.NormalizeDraftFormatSteps | src/util/draftutil.ts:302-315 | The in-place loop leaves exactly the normalized packs and changes no other field. |
| DraftFormats.NormalizeKeepsSlotsClaimed | src/util/draftutil.ts:317-329 | Dropping a trailing pass does not change how many cards the steps claim. |
| DraftFormats.NormalizePackErrors | src/util/draftutil.ts:302-382 | Without two trailing passes, a normalized pack is acceptable exactly when its slot count matches: normalization removes the pass message. |
| DraftFormats.CreateDefaultDraftFormat | src/util/draftutil.ts:397-408 | A fresh "Standard Draft" format with the given number of packs of `*` slots and default steps, no multiples, empty markdown and 8 seats. |
| DraftFormats.BuildDefaultStepsValid | src/util/draftutil.ts:391-395 | buildDefaultSteps(n) claims exactly n cards and does not end with a pass. |
| DraftFormats.DefaultFormatValid | src/util/draftutil.ts:331-408 | The default format passes validation whenever it has at least one pack. With none it fails only for missing packs. |
| InitialStates.InitialSeats | src/util/draftutil.ts:433-438 | One seat per draft seat, with empty piles, holding its first dealt pack, or nothing when there is no InitialState. |
| InitialStates.GetInitialState | src/util/draftutil.ts:410-443 | draftutil's builder: seats as above, pack 1 and pick 1. The queue is seat 0's steps pack by pack, each non-empty pack closed by an endpack unless it already ends with one. |
| InitialStates.BuildUtilQueue | src/util/draftutil.ts:415-429 | The loop over seat 0's packs builds draftutil's queue. |
| InitialStates.AddPackSteps | src/util/draftutil.ts:418-428 | One pack adds nothing when it has no steps. Otherwise it adds its steps, then an endpack unless the last step already is one. |
| InitialStates.PageInitialState | src/client/pages/CubeDraftPage.tsx:62-85 | The page's builder: the same seats. Every pack's steps are followed by an endpack, unconditionally. |
| InitialStates.PackQueueParts | src/util/draftutil.ts:417-429 | What one pack adds to each queue, once endpacks are removed or counted. |
| InitialStates.QueuesHoldTheSteps | src/client/pages/CubeDraftPage.tsx:69-71 | Apart from endpack steps, both queues hold exactly the packs' steps in order. |
| InitialStates.QueueEndPackCounts | src/util/draftutil.ts:417-429 | When no pack schedules an endpack itself, draftutil's queue has one endpack per non-empty pack and the page's has one per pack. |
| InitialStates.QueuesAgree | src/client/pages/CubeDraftPage.tsx:62-85 | The two builders give the same state when every pack of seat 0 has steps and none already ends with an endpack. |
| InitialStates.EmptyPackDiffers | src/client/pages/CubeDraftPage.tsx:69-71 | A pack with no steps adds nothing to draftutil's queue but a lone endpack to the page's. |
| InitialStates.ClosedPackDiffers | src/util/draftutil.ts:425-428 | A pack already closed by an endpack gets a second one from the page's builder only. |
| DrafterReplay.Pop | src/util/draftutil.ts:144 | `pop()` yields the last element and the rest, or undefined on an empty queue. |
| DrafterReplay.OrMinusOne | src/util/draftutil.ts:201 | `picked \|\| -1`: undefined and 0 both become -1, and any other value is kept. |
| DrafterReplay.WithoutMembers | src/util/draftutil.ts:206-208 | The filtered pack keeps every other card with its multiplicity and never the selected one. |
| DrafterReplay.FirstKept | src/util/draftutil.ts:191-199 | A found card is in the pack and among the seat's kept cards, and no earlier pack card was kept. None is found only when no pack card was kept. |
| DrafterReplay.ListAllShape | src/util/draftutil.ts:136-150 | picksList has a list for exactly the packs the steps name. The running index counts the recorded picks and trashes. |
| DrafterReplay.BuildPicksList | src/util/draftutil.ts:130-150 | The per-seat loop builds exactly the specified picksList. |
| DrafterReplay.ListOne | src/util/draftutil.ts:137-149 | One iteration adds the step's entry to its pack's list, taking the card from the pick or trash queue. |
| DrafterReplay.FlattenFirstTakerOpens | src/util/draftutil.ts:170 | Within one pack's flattened steps, the first non-pass entry has pick 1. |
| DrafterReplay.StepListFirstTakerOpens | src/util/draftutil.ts:170-178 | In a step list, the first non-pass entry has pick 1, so the packs are open before anyone reads them. |
| DrafterReplay.StepFacts | src/util/draftutil.ts:168-178 | Every step-list entry names an existing pack, and the first taking entry of each pack opens it. |
| DrafterReplay.SlotsDistinct | src/util/draftutil.ts:187 | Two seats never read the same pack in one step. |
| DrafterReplay.SeatTurnEffect | src/util/draftutil.ts:186-220 | At a pick or trash a seat reads pack `slot`, which loses the selected card. No other pack changes. |
| DrafterReplay.TurnsUntouched | src/util/draftutil.ts:181-221 | Seats that have not acted yet are unchanged, and packs no earlier seat read are unchanged. |
| DrafterReplay.TurnsNewSeat | src/util/draftutil.ts:181-221 | The seat acting last reads its rotated pack untouched by the seats before it. |
| DrafterReplay.TurnsKeepEarlierSeat | src/util/draftutil.ts:181-221 | What an earlier seat did survives a later seat's turn. |
| DrafterReplay.TurnsReadRotatedPacks | src/util/draftutil.ts:181-221 | At a pick or trash, seat i reads pack (i + offset) mod n, which loses exactly the selected card. Every seat records one more pick or trash. |
| DrafterReplay.TurnReadRotatedPack | src/util/draftutil.ts:181-221 | The same fact for one seat i, once the first k > i seats have acted. |
| DrafterReplay.PickOfCardZeroRecordedAsMinusOne | src/util/draftutil.ts:189-208 | A pick of card 0 is recorded as -1 (`picked \|\| -1`), yet card 0 is the selection and leaves the pack. |
| DrafterReplay.MissingPickResolved | src/util/draftutil.ts:191-199 | A popped -1 is replaced by the first pack card the seat ended up with. |
| DrafterReplay.ReplayStaysStopped | src/util/draftutil.ts:223-226 | Once the replay breaks, later steps change nothing. |
| DrafterReplay.ReplayStopsPastPick | src/util/draftutil.ts:223-226 | The replay stops exactly when the seat's picks plus trashes exceed pickNumber. While it runs, they never do. |
| DrafterReplay.FindKept | src/util/draftutil.ts:193-198 | The search loop finds the specified first kept card. |
| DrafterReplay.TakeTurn | src/util/draftutil.ts:182-220 | One seat's part of a step, as specified. |
| DrafterReplay.AllTurns | src/util/draftutil.ts:181-221 | Every seat in order takes its part of the step, as specified. |
| DrafterReplay.OpenPacksLoop | src/util/draftutil.ts:171-175 | Every seat's p-th dealt pack is copied into packsWithCards. |
| DrafterReplay.BuildStates | src/util/draftutil.ts:129-161 | Every seat starts with its queues, its kept cards (mainboard, then sideboard) and its picksList. |
| DrafterReplay.ReplayOne | src/util/draftutil.ts:168-233 | One iteration of the step loop as specified. It keeps the offset in range and the packs open once opened. |
| DrafterReplay.RunReplay | src/util/draftutil.ts:164-235 | The step loop returns the chosen seat's state from the specified replay. |
| DrafterReplay.GetDrafterState | src/util/draftutil.ts:112-236 | The result is empty without an InitialState. Otherwise it is the chosen seat's state after replaying the step list until the pick number is passed. |
| CubeDraftPage.SpliceInRange | src/client/pages/CubeDraftPage.tsx:277 | Splicing at a position of the pack removes exactly the card there. |
| CubeDraftPage.SpliceMinusOne | src/client/pages/CubeDraftPage.tsx:287 | `splice(-1, 1)` on a non-empty pack drops its last card. |
| CubeDraftPage.SpliceUndefined | src/client/pages/CubeDraftPage.tsx:287 | `splice(undefined, 1)` on a non-empty pack drops its first card. |
| CubeDraftPage.LookupLastWins | src/client/pages/CubeDraftPage.tsx:57 | The map holds an oracle exactly when the list names it, with the rating of the last entry naming it. |
| CubeDraftPage.ProcessPredictionsRatings | src/client/pages/CubeDraftPage.tsx:55-60 | Every pack card gets the rating of the last entry of seat 0's list naming its oracle, or 0 when none does or when that rating is 0. |
| CubeDraftPage.PackCards | src/client/pages/CubeDraftPage.tsx:363-372 | Every entry is a card of the pack with its own non-empty oracle id, and there are no more entries than pack cards. |
| CubeDraftPage.PackCardsInOrder | src/client/pages/CubeDraftPage.tsx:363-372 | The request's card indices are exactly the pack's cards with an oracle id, in pack order and with their repeats, as a front-to-back filter gives them. |
| CubeDraftPage.PackCardsComplete | src/client/pages/CubeDraftPage.tsx:363-372 | No card with an oracle id is filtered out. |
| CubeDraftPage.BestIsLastMaximum | src/client/pages/CubeDraftPage.tsx:267 | The chosen entry has the highest rating, and every later entry rates strictly lower: ties go to the last. |
| CubeDraftPage.FindIndex | src/client/pages/CubeDraftPage.tsx:268 | The first position holding the target, or -1 exactly when none does. |
| CubeDraftPage.BotChoice | src/client/pages/CubeDraftPage.tsx:255-269 | A bot's choice is -1 for an empty pack, or the random index for an empty prediction list. Otherwise it is the first pack card with the best-rated oracle, or -1 when the pack holds none. |
| CubeDraftPage.RotationInverse | src/client/pages/CubeDraftPage.tsx:326-329 | The loop's target of seat i and the source of seat j are inverse to each other. |
| CubeDraftPage.TakeMovesCard | src/client/pages/CubeDraftPage.tsx:273-277 | A seat taking position i records that card first in its pile, and its pack loses exactly that card. |
| CubeDraftPage.BotTakesItsChoice | src/client/pages/CubeDraftPage.tsx:255-288 | A bot whose choice is a position of its pack takes the first card with the best-rated oracle, and only that card. |
| CubeDraftPage.BotMissDropsLastCard | src/client/pages/CubeDraftPage.tsx:267-287 | When the best-rated oracle is not in a bot's non-empty pack, the bot records undefined and `splice(-1, 1)` discards the pack's last card. |
| CubeDraftPage.UnansweredBotLosesFirstCard | src/client/pages/CubeDraftPage.tsx:279-287 | A bot beyond the end of the answer records undefined and loses the first card of its pack. |
| CubeDraftPage.TrashRandomRecordsPosition | src/client/pages/CubeDraftPage.tsx:299-306 | At a trashrandom step a bot's trashed pile records the random position, not the card. Its pack loses the card at that position. |
| CubeDraftPage.RotationDeliversEveryPack | src/client/pages/CubeDraftPage.tsx:321-335 | Every pack lands at the neighbouring seat in the passing direction: no pack is lost or doubled. |
| CubeDraftPage.RotationAgreesWithReplay | src/client/pages/CubeDraftPage.tsx:323-329 | After a pass, seat j holds the pack that getDrafterState's shifted offset assigns it, so the page and the replay agree. |
| CubeDraftPage.ConsumeLowersWeight | src/client/pages/CubeDraftPage.tsx:231-238 | Consuming the current step uses up exactly one card of the queue's total. |
| CubeDraftPage.ConsumeKeepsTail | src/client/pages/CubeDraftPage.tsx:231-238 | Consuming changes only the head step: it keeps its action with one less, or it is removed. The rest of the queue is untouched. |
| CubeDraftPage.NoPredictionsOnlyBoardChanges | src/client/pages/CubeDraftPage.tsx:225-289 | Without cached predictions, a pick or trash takes no card into a pile: piles stay, and packs stay unless the table passes or opens. The boards still get the pick's push, so a human pick is then both in the chosen cell and in seat 0's pack. |
| CubeDraftPage.PassAdvancesPick | src/client/pages/CubeDraftPage.tsx:321-335 | A pass after the pick raises the pick number by one, pops the pass and keeps the pack number. |
| CubeDraftPage.AdvanceKeepsPiles | src/client/pages/CubeDraftPage.tsx:311-381 | Passing, opening and the other endings keep every pile, both boards and the seat count. |
| CubeDraftPage.MakePickProgress | src/client/pages/CubeDraftPage.tsx:208-238 | Only a set status flag blocks a pick, and a blocked pick changes nothing. Any other call on a non-empty queue uses up at least one card of the queue. |
| CubeDraftPage.HumanPickRecorded | src/client/pages/CubeDraftPage.tsx:224-277 | A human pick puts the same card first in seat 0's picks and last in the chosen board cell. |
| CubeDraftPage.OpeningDealsNextPacks | src/client/pages/CubeDraftPage.tsx:337-360 | Opening raises the pack number, resets the pick to 1 and gives every seat its next dealt pack. |
| CubeDraftPage.FinishAfterLastPack | src/client/pages/CubeDraftPage.tsx:337-346 | The draft finishes only after the last dealt pack, and the closing endpack stays queued. |
| CubeDraftPage.MakePickKeepsTableReady | src/client/pages/CubeDraftPage.tsx:206-392 | makePick keeps the table ready for the next call. |
| CubeDraftPage.PackTitlePlural | src/client/pages/CubeDraftPage.tsx:541-545 | A pick or trash heading ends in "cards" exactly when the step asks for more than one card. |
| CubeDraftPage.PackTitleEmptyOnlyAtPass | src/client/pages/CubeDraftPage.tsx:530-555 | Without loading, the heading is empty exactly when the next step is a pass. |
| CubeDraftPage.TakeSelections | src/client/pages/CubeDraftPage.tsx:272-288 | The selection loop gives exactly the specified seats: seat 0 first, then every bot in seat order. |
| CubeDraftPage.TakeRandom | src/client/pages/CubeDraftPage.tsx:290-309 | The random loop gives exactly the specified seats. |
| CubeDraftPage.PassPacks | src/client/pages/CubeDraftPage.tsx:323-329 | The passing loop gives exactly the rotated seats. |
| CubeDraftPage.OpenNextPacks | src/client/pages/CubeDraftPage.tsx:352-354 | The opening loop gives every seat its dealt pack p, or nothing without an InitialState. |
| CubeDraftPage.DraftPage.constructor | src/client/pages/CubeDraftPage.tsx:97-111 | A fresh page: the page's initial state, a 2 x 8 deck, a 1 x 8 sideboard, no ratings and no flags set. |
| CubeDraftPage.DraftPage.GetPredictions | src/client/pages/CubeDraftPage.tsx:160-186 | A failed request sets the error flag. An answer is cached and its ratings are computed. Loading ends either way. |
| CubeDraftPage.DraftPage.MakePick | src/client/pages/CubeDraftPage.tsx:206-392 | The page's new state and the way the call ended are the specified move of the whole table. |
| CubeDraftPage.DraftPage.TakeStep | src/client/pages/CubeDraftPage.tsx:224-238 | The board push for a pick action, then the current step consumed. |
| CubeDraftPage.DraftPage.SelectCards | src/client/pages/CubeDraftPage.tsx:252-309 | The selections of every seat, as specified. |
| CubeDraftPage.DraftPage.NextStep | src/client/pages/CubeDraftPage.tsx:311-381 | The end of makePick: pass, open, finish or stop, as specified. |
| CubeDraftPage.DraftPage.PassInPlace | src/client/pages/CubeDraftPage.tsx:321-335 | A pass rotates the packs, raises the pick number and pops the pass. |
| CubeDraftPage.DraftPage.OpenInPlace | src/client/pages/CubeDraftPage.tsx:348-376 | Opening deals every seat its next pack, then requests ratings when seat 0's new pack is non-empty. |
| CubeDraftPage.DraftPage.DealInPlace | src/client/pages/CubeDraftPage.tsx:348-360 | The deal: pack number up, pick back to 1, every seat holding its next dealt pack, the endpack popped and the ratings cleared. |
| FinishDraft.DecodeBody | src/router/routes/draft/finish.ts:34-65 | The body is accepted exactly when it has the schema's shape. Every seat object has exactly picks, trashed and pack; extra keys are allowed elsewhere. Anything else is a 400. |
| FinishDraft.NumbersRoundTrip | src/router/routes/draft/finish.ts:39-41 | A list of safe integers encodes to a number array that decodes back to it. |
| FinishDraft.BoardRoundTrip | src/router/routes/draft/finish.ts:50-55 | A board encodes to a three-level number array that decodes back to it. |
| FinishDraft.BodyRoundTrip | src/router/routes/draft/finish.ts:34-65 | Any body the client can send with safe integers passes the schema and decodes to itself. |
| FinishDraft.ExtraSeatKeyRefused | src/router/routes/draft/finish.ts:38-42 | A seat object with any key besides picks, trashed and pack is refused. |
| FinishDraft.ResolveKeyTakesFirstMatch | src/router/routes/draft/finish.ts:117-128 | A deck key takes the first pool entry with its oracle. Only when the pool has none does it fall back to the first such basic, and when there is none it is dropped. |
| FinishDraft.PoolMatchTaken | src/router/routes/draft/finish.ts:118-127 | A key found in the pool moves the first pool entry with that oracle to the deck and out of the pool. |
| FinishDraft.BasicMatchAdded | src/router/routes/draft/finish.ts:118-124 | A key missing from the pool leaves the pool alone and adds the first basic with that oracle, if any. |
| FinishDraft.ResolveKeyConserves | src/router/routes/draft/finish.ts:117-128 | Resolving one key loses and duplicates no pick. |
| FinishDraft.ResolveConserves | src/router/routes/draft/finish.ts:113-129 | The taken entries and the remaining pool together are exactly the picks, as a multiset. |
| FinishDraft.ResolveDeckFrom | src/router/routes/draft/finish.ts:113-129 | The deck holds only picks and basics, at most one entry per key. |
| FinishDraft.ResolvedIndicesValid | src/router/routes/draft/finish.ts:113-129 | Every deck and pool entry is a card of the draft. |
| FinishDraft.BotMainboardCells | src/router/routes/draft/finish.ts:131-140 | The bot mainboard is 2 x 8. A card sits in a cell exactly when it is a deck entry whose default cell that is. |
| FinishDraft.SidePlacementMembers | src/router/routes/draft/finish.ts:142-149 | A card is placed in column c exactly when it is left in the pool, is not a basic, and its default column is c. |
| FinishDraft.BotSideboardCells | src/router/routes/draft/finish.ts:133-149 | The bot sideboard is 1 x 8. A card sits in column c exactly when it is left in the pool, is not a basic, and its default column is c. |
| FinishDraft.BotMainboardCellOrder | src/router/routes/draft/finish.ts:131-140 | Each mainboard cell lists exactly the deck entries whose default cell it is, as often and in the order they occur in the deck. |
| FinishDraft.BotSideboardColumnOrder | src/router/routes/draft/finish.ts:142-149 | Each sideboard column lists exactly the remaining non-basic pool entries of that column, in pool order. |
| FinishDraft.ResolveBotPicks | src/router/routes/draft/finish.ts:113-129 | The matching loop gives exactly the specified deck and remaining pool. |
| FinishDraft.FormatMainboard | src/router/routes/draft/finish.ts:132-140 | The mainboard loop gives exactly the specified bot mainboard. |
| FinishDraft.FormatSideboard | src/router/routes/draft/finish.ts:133-149 | The sideboard loop gives exactly the specified bot sideboard. |
| FinishDraft.FinishedSeatsShape | src/router/routes/draft/finish.ts:95-153 | Every submitted seat gets its pick and trash orders. Seat 0 gets the boards as sent. Every bot gets a 2 x 8 mainboard and a 1 x 8 sideboard holding the resolved deck and the remaining non-basic picks. |
| FinishDraft.BuildBotDeck | src/router/routes/draft/finish.ts:106-152 | One bot seat's boards as specified. |
| FinishDraft.DraftRecord.constructor | src/router/routes/draft/finish.ts:71 | A loaded draft with its cards, basics, owner, seats and completion flag. |
| FinishDraft.DraftRecord.BuildBotDecks | src/router/routes/draft/finish.ts:104-153 | Every seat from 1 on gets the boards built from its submitted picks. Seat 0 and the completion flag are kept. |
| FinishDraft.DraftRecord.Finish | src/router/routes/draft/finish.ts:67-173 | No user: 401 with nothing changed. Not the owner: 401 with nothing changed. A body that makes the handler throw: 500 with nothing stored. Otherwise: 200, the draft is complete and its seats are the finished seats. |
| FinishDraft.FinishRoute | src/router/routes/draft/finish.ts:58-153 | A body failing the schema gets 400 and nothing changes. A missing draft gets 404. Otherwise the handler's replies: 401 without a user, 401 for a non-owner and 500 when building the bots' decks would throw, each leaving the draft unchanged; else 200 with the draft complete and its seats finished. |
| UploadDeck.FindInCube | src/router/routes/cube/records/uploaddeck.ts:63 | The first cube card with the oracle, or none exactly when no cube card has it. |
| UploadDeck.FallbackId | src/router/routes/cube/records/uploaddeck.ts:73-75 | The reasonable printing's id when it is non-empty, else the first known version. |
| UploadDeck.Select | src/router/routes/cube/records/uploaddeck.ts:60-80 | The cube's own copy, with its finish and images, when the cube has the oracle. Otherwise the fallback printing without them. In both cases the details are those of the chosen id. |
| UploadDeck.UploadCell | src/router/routes/cube/records/uploaddeck.ts:83-87 | The row is 0 exactly for creatures. The column is the floor of cmc clamped to 0..7. |
| UploadDeck.Selections | src/router/routes/cube/records/uploaddeck.ts:60-92 | One chosen card per uploaded oracle id, in upload order. |
| UploadDeck.UploadedDeckCells | src/router/routes/cube/records/uploaddeck.ts:57-92 | The deck is 2 x 8. An index sits in a cell exactly when it names an appended card whose upload cell that is. |
| UploadDeck.UploadedDeckIncreasing | src/router/routes/cube/records/uploaddeck.ts:89-90 | Each cell lists its indices in strictly increasing order, so none repeats. |
| UploadDeck.PlaceUploadedCards | src/router/routes/cube/records/uploaddeck.ts:136-168 | The loop appends the chosen cards to the card list and gives the specified deck. |
| UploadDeck.RecordEntry.constructor | src/router/routes/cube/records/uploaddeck.ts:177 | A loaded record with its date, players and draft link. |
| UploadDeck.AssociateNewDraft | src/router/routes/cube/records/uploaddeck.ts:53-122 | A seat number naming no player throws before anything is stored. Otherwise: a completed draft with one seat per player, every seat empty except the uploader's mainboard, which is the uploaded deck; the record then points at the new draft. |
| UploadDeck.StoredDraft.constructor | src/router/routes/cube/records/uploaddeck.ts:205 | A loaded draft with its cards and seats. |
| UploadDeck.StoredDraft.AssociateWithExistingDraft | src/router/routes/cube/records/uploaddeck.ts:124-173 | The chosen cards are appended, and earlier indices keep their cards. Only the uploader's seat gets the new mainboard. It is stored exactly when the seat exists. |
| UploadDeck.HasDeckMeansNonEmptyCell | src/router/routes/cube/records/uploaddeck.ts:218-222 | The guard refuses exactly when the uploader's seat exists and some cell of its mainboard is non-empty. |
| UploadDeck.UploadDeckHandler | src/router/routes/cube/records/uploaddeck.ts:197-227 | No linked draft, or a vanished one: a new draft when the seat exists. A seat that already has a deck: refused with nothing changed. Otherwise the existing draft is updated, or the call fails for an unknown seat. A created draft holds the uploaded deck on the uploader's seat and the record then points at it; an updated draft gets the cards appended and the deck on the uploader's seat only; a failure changes no seat and no record link. |
| CardLink.IndexOf | src/client/markdown/cardlink/index.js:41-44 | The first position where the separator occurs, or -1 exactly when it never does. |
| CardLink.SplitJoin | src/client/markdown/cardlink/index.js:41-44 | Joining the pieces with the separator gives the string back. |
| CardLink.SplitPiecesClean | src/client/markdown/cardlink/index.js:41-44 | No piece contains the separator. |
| CardLink.SplitHead | src/client/markdown/cardlink/index.js:41-48 | There is more than one piece exactly when the separator occurs. The first piece is the text before its first occurrence. |
| CardLink.TwoPieces | src/client/markdown/cardlink/index.js:41-44 | When the separator occurs, the first two pieces with the separator between them start the string. |
| CardLink.NameAndIdSplit | src/client/markdown/cardlink/index.js:41-48 | The escaped pipe is preferred: the name is the text before its first occurrence, and the id runs up to the next one. Only without it does a plain pipe split. With neither, name and id are the whole text. |
| CardLink.Render | src/client/markdown/cardlink/index.js:41-57 | The text, type and flags are kept. Name and id are the split of the text. hName is the type name, and hProperties mirror name, id and flags. |
| CardLink.ImageMarkers | src/client/markdown/cardlink/index.js:8-30 | A leading `!`, `!/` or `/!` makes a card image. |
| CardLink.MarkerOrderIrrelevant | src/client/markdown/cardlink/index.js:8-30 | On a cardlink node, `!/x` and `/!x` give the same node, with text x and the back face requested. |
| CardLink.DoubleSlash | src/client/markdown/cardlink/index.js:14-24 | `//x` sets both dfc and showBackImage and leaves x. |
| CardLink.MarkersStripPrefix | src/client/markdown/cardlink/index.js:8-30 | At most three leading `!` and `/` characters come off the text, and nothing else changes in it. |
| CardLink.MarkersFlags | src/client/markdown/cardlink/index.js:8-35 | Flags only turn on and the type only becomes cardimage. inParagraph is set exactly for images under a paragraph or an in-paragraph parent. |
| CardLink.PlainText | src/client/markdown/cardlink/index.js:8-30 | A text without leading markers keeps its type and flags. |
| CardLink.CardLinkNode.constructor | src/client/markdown/cardlink/index.js:7 | A node as the card-link syntax produces it: its text, type cardlink, no flags set. |
| CardLink.CardLinkNode.ReadMarkersInPlace | src/client/markdown/cardlink/index.js:8-35 | The in-place marker reading gives the specified node. |
| CardLink.CardLinkNode.RenderInPlace | src/client/markdown/cardlink/index.js:41-57 | The in-place split and rendering give the specified node. |
| CardLink.CardLinkNode.OnCard | src/client/markdown/cardlink/index.js:7-58 | oncard leaves the node as the markers and the split specify. |

## Left out

- **Page machinery.** The model leaves out React state plumbing, `useLocalStorage`, the drag-and-drop handlers, the auto-pick effect and the initial ratings effect. It also leaves out `endDraft` (a network call; the model reports `Finished` instead) and logging. None of these is in the drafting logic modelled here.
- **Inputs.** These become parameters:
  - `Math.random()`: each seat's random position is an input.
  - The prediction service: its answer is an input, with `None` for a failed request.
  - The deck builder (src/util/draftbots), the card database (src/util/carddb: `getVersionsByOracleId`, `getReasonableCardByOracle`, `cardFromId`) and `cmcColumn`, `cardType`, `cardCmc` and `cardOracleId` from src/client/utils/cardutil are not part of this model: card types, cmc columns and oracle ids are fields of the card.
  - `createPool` (src/routes/cube/helper) is taken to give a 2 x 8 empty board.
- **Text.** Lower-casing covers the ASCII letters only. Trimming removes the characters ECMAScript counts as white space or line terminators, including Unicode's space separators. Strings are sequences of characters without normalisation.
- **Validation.** The body schema's library is reduced to the verdict: numeric strings are not converted, numbers are integers, and the 400 message text is not modelled. A `defaultSeats` that is not a number is modelled only as a number, NaN or infinity. Undefined and NaN step amounts are modelled as missing (`null`). The source treats them differently, and the model loses two consequences. getErrorsInFormat adds an undefined amount as a number and gets NaN, so that pack always fails the slot check; the model counts the amount as 1. packTitle prints "undefined" where the model prints "null".
- **Persistence and side effects.** The model leaves out `Draft.put`, `Cube.update` with `numDecks += 1`, `Record.put`, `sendDraftNotification`, CSRF handling, flash messages and redirects. It also leaves out uploadDeckHandler's record and cube loading, its permission checks and the parsing of its form fields (`parseInt` and `JSON.parse`). `addBasics` is left out: its code is not part of this model.
- **Aliasing.** The model copies values instead of sharing arrays:
  - normalizeDraftSteps pops from the caller's array; the model returns the shortened sequence.
  - normalizeDraftSteps' input shares the two `DEFAULT_STEPS` objects between all of its pick and pass entries (buildDefaultSteps fills an array with that one array and flattens it); the model's steps are values, so nothing is shared. Each pack gets its own step list in both.
  - associateWithExistingDraft's appends to the draft's card array would survive its throw in memory, but nothing is stored then.
- **Missing cards.** In the page's bot choice the source throws when a pack index names no card, because it reads `draft.cards[i].details` without a guard. The model reads an empty oracle id there instead and carries on. That id matches only a best-rated prediction whose oracle is itself empty. Only the prediction request guards the read (`?.`) and uses an empty id, as the model does.
- **Seat counts.** The page uses `draft.seats.length` in the passing loop and `state.seats.length` elsewhere; the model takes the two to be equal.
- **Total fallbacks.** The replay's specification functions are total: out-of-range reads give an empty pack, where the source would throw. The methods' requires exclude those inputs.
- **Card links.** An undefined node flag reads as false. The unist visitor that calls oncard on every `cardlink` node is left out.
- DraftSteps.DraftStep: a step amount is a natural number or null. The source's amounts are any JavaScript number, and validation does not check their sign or integrality: getErrorsInFormat only sums them. flattenSteps then adds no entry for a negative amount and rounds a fraction up (1.5 gives two entries). So the source accepts a 2-slot pack with steps `pick 3, pick -1` (3 - 1 = 2) and flattens it into 3 picks from a 2-card pack. The model cannot express such steps.
- **Null steps.** A step inside a pack's step list cannot be null in the model (steps are values), so getErrorsInFormat's `if (step === null) continue` (src/util/draftutil.ts:359-361) has no counterpart. A null list of steps is modelled.
- CubeDraftPage.PackTitle: requires a queued step or a loading flag. With an empty queue and no loading the source throws reading `nextStep.action`; that happens only for an InitialState with no packs.
- **Conditions that always hold.** The upload's `if (selected)` guard is always true and is not modelled as a branch.
- CubeDraftPage.DraftPage.MakePick: requires the table to be consistent (`TableReady`) and the arguments to fit it (`ArgsFit`): seats exist, every seat was dealt every pack, and the pick names a card and a cell. On most other inputs the source throws inside a React callback, but not on all of them. A human pick index outside the pack does not throw: the source pushes `undefined` onto the board and its `splice` removes nothing. `ArgsFit` excludes it anyway, as it does the random positions outside a pack, which are inputs of the model rather than the source's. Only the throw on an empty queue and on an answer longer than the table is modelled, as `Crashed`.
- CubeDraftPage.MakePickKeepsTableReady: the same preconditions as MakePick.
- InitialStates.GetInitialState: requires a non-empty InitialState whose seat-0 packs all have steps, and a first dealt pack for every seat, because the source throws otherwise (it reads `InitialState[0]`, then each pack's `steps.length`).
- InitialStates.PageInitialState: requires a non-empty InitialState whose seat-0 packs all have steps, and a first dealt pack for every seat, because the source throws otherwise (it spreads each pack's `steps`).
- DrafterReplay.GetDrafterState: when there is an InitialState, requires the seat number to name a seat and every seat to have been dealt at least as many packs as seat 0, because the source throws otherwise. Without an InitialState any seat number gives the empty state.
- DeckGrid.GetCardCol: requires the index to name a card, because the source throws otherwise.
- DraftFormats.NormalizeDraftFormatSteps: requires the packs to exist, because the source throws on null packs.
- FinishDraft.DraftRecord.Finish: decides up front whether the handler will throw. The source throws part-way through the seat loops, but in both cases it answers 500 and stores nothing, so the model leaves the record unchanged.
- UploadDeck.RecordEntry: a record's draft link is `Some(id)` or `None`. The source tests the link for truthiness, so an empty-string id counts as no draft there. The model treats `Some("")` as a link to a draft with id "".
- UploadDeck.UploadDeckHandler: requires that a record without a draft link comes with no loaded draft. The handler only loads a draft when the record names one.
- CardLink.MarkerOrderIrrelevant: stated for nodes that arrive as cardlink. A node already typed cardimage keeps a second `!`.
