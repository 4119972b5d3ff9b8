/**
 * Uploading a deck to a cube record (src/router/routes/cube/records/uploaddeck.ts):
 * every uploaded oracle id is resolved to a printing, appended to the draft's
 * cards and placed by index into a creature / non-creature by mana-value grid,
 * which becomes the mainboard of the uploading player's seat.
 */
module UploadDeck {
  import opened Wrappers
  import opened DeckGrid

  /** A card of the cube's mainboard: its printing, its oracle id, and the presentation fields the upload copies. */
  datatype CubeCard = CubeCard(cardID: string, oracleId: string,
                               finish: Option<string>, imgUrl: Option<string>, imgBackUrl: Option<string>)

  /**
   * The card database's lookups (src/util/carddb, not part of this model):
   * getVersionsByOracleId, the scryfall id of getReasonableCardByOracle
   * (`None` when there is no such card or it has no id), and cardFromId
   * (`None` stands for `undefined`).
   */
  datatype CardDb = CardDb(versionsByOracleId: string -> seq<string>,
                           reasonableIdByOracle: string -> Option<string>,
                           cardFromId: Option<string> -> CardDetails)

  /** A card appended to the draft. */
  datatype DeckCard = DeckCard(cardID: Option<string>, finish: Option<string>, imgUrl: Option<string>,
                               imgBackUrl: Option<string>, details: CardDetails)

  /** Position k holds the first cube card with that oracle id. */
  predicate FirstMatch(mainboard: seq<CubeCard>, oracle: string, k: int) {
    0 <= k < |mainboard| && mainboard[k].oracleId == oracle
    && forall j :: 0 <= j < k ==> mainboard[j].oracleId != oracle
  }

  /** `mainboard.find((c) => cardOracleId(c) === oracle)`. */
  function FindInCube(mainboard: seq<CubeCard>, oracle: string): (r: Option<CubeCard>)
    ensures r.None? <==> forall k :: 0 <= k < |mainboard| ==> mainboard[k].oracleId != oracle
    ensures r.Some? ==> r.value.oracleId == oracle && exists k :: FirstMatch(mainboard, oracle, k) && mainboard[k] == r.value
  {
    if mainboard == [] then None
    else if mainboard[0].oracleId == oracle then Some(mainboard[0])
    else
      var r := FindInCube(mainboard[1..], oracle);
      if r.Some? then
        var k :| FirstMatch(mainboard[1..], oracle, k) && mainboard[1..][k] == r.value;
        assert FirstMatch(mainboard, oracle, k + 1);
        r
      else r
  }

  /** `reasonableId || potentialIds[0]`: an empty id counts as missing. */
  function FallbackId(db: CardDb, oracle: string): (id: Option<string>)
    ensures var reasonable := db.reasonableIdByOracle(oracle);
      && (reasonable.Some? && reasonable.value != "" ==> id == reasonable)
      && (!(reasonable.Some? && reasonable.value != "") && |db.versionsByOracleId(oracle)| > 0 ==>
            id == Some(db.versionsByOracleId(oracle)[0]))
      && (!(reasonable.Some? && reasonable.value != "") && |db.versionsByOracleId(oracle)| == 0 ==> id.None?)
  {
    var reasonable := db.reasonableIdByOracle(oracle);
    if reasonable.Some? && reasonable.value != "" then reasonable
    else
      var potentialIds := db.versionsByOracleId(oracle);
      if |potentialIds| > 0 then Some(potentialIds[0]) else None
  }

  /** The card chosen for an uploaded oracle id: the cube's own copy first, else the reasonable printing, else the first version. */
  function Select(db: CardDb, mainboard: seq<CubeCard>, oracle: string): (d: DeckCard)
    ensures d.details == db.cardFromId(d.cardID)
    ensures FindInCube(mainboard, oracle).Some? ==>
      var c := FindInCube(mainboard, oracle).value;
      d == DeckCard(Some(c.cardID), c.finish, c.imgUrl, c.imgBackUrl, db.cardFromId(Some(c.cardID)))
    ensures FindInCube(mainboard, oracle).None? ==>
      d.cardID == FallbackId(db, oracle) && d.finish.None? && d.imgUrl.None? && d.imgBackUrl.None?
  {
    var inCube := FindInCube(mainboard, oracle);
    if inCube.Some? then
      var c := inCube.value;
      DeckCard(Some(c.cardID), c.finish, c.imgUrl, c.imgBackUrl, db.cardFromId(Some(c.cardID)))
    else
      var selectedId := FallbackId(db, oracle);
      DeckCard(selectedId, None, None, None, db.cardFromId(selectedId))
  }

  /** Row 0 for creatures, 1 otherwise; column `Math.max(0, Math.min(7, Math.floor(cmc)))`. */
  function UploadCell(details: CardDetails): (rc: (nat, nat))
    ensures rc.0 == 0 <==> IsCreatureType(details.typeLine)
    ensures rc.0 <= 1 && rc.1 <= 7
    ensures 0.0 <= details.cmc < 8.0 ==> rc.1 == details.cmc.Floor
    ensures details.cmc < 0.0 ==> rc.1 == 0
    ensures details.cmc >= 8.0 ==> rc.1 == 7
  {
    (if IsCreatureType(details.typeLine) then 0 else 1, ClampColumn(details.cmc.Floor))
  }

  /** The cards the upload appends, one per oracle id, in upload order. */
  function Selections(db: CardDb, mainboard: seq<CubeCard>, oracles: seq<string>): (sel: seq<DeckCard>)
    ensures |sel| == |oracles|
    ensures forall k :: 0 <= k < |oracles| ==> sel[k] == Select(db, mainboard, oracles[k])
  {
    seq(|oracles|, k requires 0 <= k < |oracles| => Select(db, mainboard, oracles[k]))
  }

  /** The k-th appended card gets index base + k and goes to its upload cell. */
  function UploadPlacements(base: nat, sel: seq<DeckCard>): (ps: seq<Placement>)
    ensures |ps| == |sel| && Fits(ps, 2, 8)
  {
    seq(|sel|, k requires 0 <= k < |sel| =>
      Placement(base + k, UploadCell(sel[k].details).0, UploadCell(sel[k].details).1))
  }

  /** `createPool()` (src/routes/cube/helper, not part of this model), taken to be the empty 2 x 8 grid the pushes index. */
  function CreatePool(): Grid {
    EmptyGrid(2, 8)
  }

  /** The uploaded deck: appended cards `base`, `base + 1`, ... pushed into a fresh pool. */
  function UploadedDeck(base: nat, sel: seq<DeckCard>): Grid {
    Placed(CreatePool(), UploadPlacements(base, sel))
  }

  /**
   * The deck is 2 x 8, and an index sits in a cell exactly when it names one
   * of the appended cards and that card's upload cell is that one.
   */
  lemma UploadedDeckCells(base: nat, sel: seq<DeckCard>, r: nat, c: nat, x: int)
    requires r < 2 && c < 8
    ensures Shaped(UploadedDeck(base, sel), 2, 8)
    ensures x in UploadedDeck(base, sel)[r][c] <==>
      base <= x < base + |sel| && UploadCell(sel[x - base].details) == (r, c)
  {
    var ps := UploadPlacements(base, sel);
    PlacedFromEmpty(2, ps);
    InCellMembers(ps, r, c, x);
    if base <= x < base + |sel| && UploadCell(sel[x - base].details) == (r, c) {
      assert ps[x - base] == Placement(x, r, c);
    }
  }

  /** No index appears twice in a cell: each cell lists its indices in increasing order. */
  lemma UploadedDeckIncreasing(base: nat, sel: seq<DeckCard>, r: nat, c: nat)
    requires r < 2 && c < 8
    ensures var cell := UploadedDeck(base, sel)[r][c];
      forall i, j :: 0 <= i < j < |cell| ==> cell[i] < cell[j]
  {
    var ps := UploadPlacements(base, sel);
    PlacedFromEmpty(2, ps);
    InCellIncreasing(ps, r, c);
  }

  /**
   * The placement loop shared by both associate functions: for every oracle
   * id, push `cards.length` into the chosen card's cell, then append the card.
   */
  method PlaceUploadedCards(cards: seq<DeckCard>, db: CardDb, mainboard: seq<CubeCard>, oracles: seq<string>)
    returns (deck: Grid, newCards: seq<DeckCard>)
    ensures newCards == cards + Selections(db, mainboard, oracles)
    ensures deck == UploadedDeck(|cards|, Selections(db, mainboard, oracles))
  {
    deck := SetupPicks(2, 8);
    newCards := cards;
    ghost var sel := Selections(db, mainboard, oracles);
    ghost var ps := UploadPlacements(|cards|, sel);
    for k := 0 to |oracles|
      invariant newCards == cards + sel[..k]
      invariant deck == Placed(CreatePool(), ps[..k])
    {
      var selected := Select(db, mainboard, oracles[k]);
      var rc := UploadCell(selected.details);
      PlacedPrefixSnoc(CreatePool(), ps, k);
      assert ps[k] == Placement(|newCards|, rc.0, rc.1);
      deck := Push(deck, rc.0, rc.1, |newCards|);
      newCards := newCards + [selected];
      assert sel[..k + 1] == sel[..k] + [selected];
    }
    assert sel[..|oracles|] == sel && ps[..|oracles|] == ps;
  }

  /** Placing one more placement of `ps` pushes it onto the grid placed so far. */
  lemma PlacedPrefixSnoc(g: Grid, ps: seq<Placement>, k: nat)
    requires Shaped(g, |g|, 8) && Fits(ps, |g|, 8) && k < |ps|
    ensures Fits(ps[..k], |g|, 8) && Fits(ps[..k + 1], |g|, 8)
    ensures Placed(g, ps[..k + 1]) == Push(Placed(g, ps[..k]), ps[k].row, ps[k].col, ps[k].ref)
  {
    assert ps[..k + 1][..k] == ps[..k];
  }

  /** A seat of an uploaded draft. */
  datatype UploadSeat = UploadSeat(owner: Option<string>, title: string, mainboard: Grid, sideboard: Grid)

  /** A player of a record. */
  datatype Player = Player(userId: Option<string>, name: string)

  /** The fields of the cube the upload reads. */
  datatype Cube = Cube(id: string, ownerId: string, basics: seq<int>, mainboard: seq<CubeCard>)

  /** The draft associateNewDraft creates (before addBasics). */
  datatype NewDraft = NewDraft(cube: string, owner: string, cubeOwner: string, date: int,
                               cards: seq<DeckCard>, seats: seq<UploadSeat>, complete: bool, basics: seq<int>)

  /** A record of a draft played outside the site; the upload links it to a draft. */
  class RecordEntry {
    const date: int
    const players: seq<Player>
    var draft: Option<string>

    constructor (date: int, players: seq<Player>, draft: Option<string>)
      ensures this.date == date && this.players == players && this.draft == draft
    {
      this.date := date;
      this.players := players;
      this.draft := draft;
    }
  }

  /**
   * The draft an upload creates: the cube's, completed, dated by the record,
   * holding the chosen cards, with one seat per player that is empty except
   * for the uploader's mainboard, which is the uploaded deck.
   */
  predicate UploadedDraft(d: NewDraft, cube: Cube, date: int, players: seq<Player>, userIndex: int,
                          db: CardDb, oracles: seq<string>)
  {
    && d.cube == cube.id && d.owner == cube.ownerId && d.cubeOwner == cube.ownerId
    && d.date == date && d.complete && d.basics == cube.basics
    && d.cards == Selections(db, cube.mainboard, oracles)
    && |d.seats| == |players|
    && forall i :: 0 <= i < |d.seats| ==>
         && d.seats[i].owner == players[i].userId
         && d.seats[i].title == players[i].name
         && d.seats[i].sideboard == CreatePool()
         && d.seats[i].mainboard == (if i == userIndex - 1 then UploadedDeck(0, d.cards) else CreatePool())
  }

  /**
   * associateNewDraft: a completed draft with one seat per player, every seat
   * empty but the uploader's, whose mainboard is the uploaded deck; the record
   * then points at the new draft's id. A seat number naming no player throws
   * before anything is stored.
   */
  method AssociateNewDraft(cube: Cube, record: RecordEntry, userIndex: int, oracles: seq<string>, db: CardDb, newId: string)
    returns (created: Option<NewDraft>)
    modifies record
    ensures !(1 <= userIndex <= |record.players|) ==> created.None? && unchanged(record)
    ensures 1 <= userIndex <= |record.players| ==>
      && record.draft == Some(newId)
      && created.Some?
      && UploadedDraft(created.value, cube, record.date, record.players, userIndex, db, oracles)
  {
    var deck, cards := PlaceUploadedCards([], db, cube.mainboard, oracles);
    var players := record.players;
    var seats := seq(|players|, i requires 0 <= i < |players| =>
      UploadSeat(players[i].userId, players[i].name, CreatePool(), CreatePool()));
    if !(1 <= userIndex <= |seats|) {
      return None;
    }
    seats := seats[userIndex - 1 := seats[userIndex - 1].(mainboard := deck)];
    created := Some(NewDraft(cube.id, cube.ownerId, cube.ownerId, record.date, cards, seats, true, cube.basics));
    record.draft := Some(newId);
  }

  /** An existing draft the upload updates in place. */
  class StoredDraft {
    var cards: seq<DeckCard>
    var seats: seq<UploadSeat>

    constructor (cards: seq<DeckCard>, seats: seq<UploadSeat>)
      ensures this.cards == cards && this.seats == seats
    {
      this.cards := cards;
      this.seats := seats;
    }

    /**
     * associateWithExistingDraft: the chosen cards are appended to the
     * draft's own card list (earlier indices keep their cards), and only the
     * uploader's seat gets the new mainboard. A seat number naming no seat
     * throws after the appends and before the draft is stored.
     */
    method AssociateWithExistingDraft(mainboard: seq<CubeCard>, userIndex: int, oracles: seq<string>, db: CardDb)
      returns (stored: bool)
      modifies this
      ensures cards == old(cards) + Selections(db, mainboard, oracles)
      ensures stored <==> 1 <= userIndex <= |old(seats)|
      ensures !stored ==> seats == old(seats)
      ensures stored ==>
        seats == old(seats)[userIndex - 1 := old(seats)[userIndex - 1].(mainboard := UploadedDeck(|old(cards)|, Selections(db, mainboard, oracles)))]
    {
      var deck, newCards := PlaceUploadedCards(cards, db, mainboard, oracles);
      cards := newCards;
      if !(1 <= userIndex <= |seats|) {
        return false;
      }
      seats := seats[userIndex - 1 := seats[userIndex - 1].(mainboard := deck)];
      return true;
    }
  }

  /** `draft.seats[userIndex - 1]?.mainboard?.flat(3).length > 0`. */
  predicate HasDeck(seats: seq<UploadSeat>, userIndex: int) {
    1 <= userIndex <= |seats| && |FlatGrid(seats[userIndex - 1].mainboard)| > 0
  }

  /** The guard refuses exactly when the uploader's seat exists and some cell of its mainboard is non-empty. */
  lemma HasDeckMeansNonEmptyCell(seats: seq<UploadSeat>, userIndex: int)
    ensures HasDeck(seats, userIndex) <==>
      && 1 <= userIndex <= |seats|
      && var board := seats[userIndex - 1].mainboard;
         exists r, c :: 0 <= r < |board| && 0 <= c < |board[r]| && board[r][c] != []
  {
    if 1 <= userIndex <= |seats| {
      FlatGridEmpty(seats[userIndex - 1].mainboard);
    }
  }

  /** How uploadDeckHandler ends, after its permission checks. */
  datatype UploadOutcome =
    | CreatedDraft        // the record had no draft: a new one was created
    | ReplacedMissingDraft // the record's draft was gone: a new one was created
    | AlreadyHasDeck      // refused: the uploader's seat already has a deck
    | UpdatedDraft        // the record's draft was updated
    | Failed              // an associate function threw: nothing stored

  /**
   * uploadDeckHandler from the point where the record and cube are loaded:
   * `existing` is the draft the record points at (null when it names none or
   * it is gone). A new draft is returned when one is created.
   */
  method UploadDeckHandler(cube: Cube, record: RecordEntry, existing: StoredDraft?, userIndex: int,
                           oracles: seq<string>, db: CardDb, newId: string)
    returns (outcome: UploadOutcome, created: Option<NewDraft>)
    requires record.draft.None? ==> existing == null
    modifies record, existing
    ensures existing == null ==>
      && (var success := if old(record.draft).None? then CreatedDraft else ReplacedMissingDraft;
          outcome == success <==> 1 <= userIndex <= |record.players|)
      && (outcome == Failed <==> !(1 <= userIndex <= |record.players|))
      && (created.Some? <==> 1 <= userIndex <= |record.players|)
      && (1 <= userIndex <= |record.players| ==>
            && record.draft == Some(newId)
            && UploadedDraft(created.value, cube, record.date, record.players, userIndex, db, oracles))
      && (!(1 <= userIndex <= |record.players|) ==> unchanged(record))
    ensures existing != null && HasDeck(old(existing.seats), userIndex) ==>
      outcome == AlreadyHasDeck && created.None? && unchanged(existing) && unchanged(record)
    ensures existing != null && !HasDeck(old(existing.seats), userIndex) ==>
      && created.None? && unchanged(record)
      && existing.cards == old(existing.cards) + Selections(db, cube.mainboard, oracles)
      && (outcome == UpdatedDraft <==> 1 <= userIndex <= |old(existing.seats)|)
      && (outcome == Failed <==> !(1 <= userIndex <= |old(existing.seats)|))
      && (outcome == UpdatedDraft ==>
            existing.seats == old(existing.seats)[userIndex - 1 := old(existing.seats)[userIndex - 1].(
              mainboard := UploadedDeck(|old(existing.cards)|, Selections(db, cube.mainboard, oracles)))])
      && (outcome == Failed ==> existing.seats == old(existing.seats))
  {
    if existing == null {
      var wasLinked := record.draft.Some?;
      created := AssociateNewDraft(cube, record, userIndex, oracles, db, newId);
      if created.None? {
        outcome := Failed;
      } else if wasLinked {
        outcome := ReplacedMissingDraft;
      } else {
        outcome := CreatedDraft;
      }
      return;
    }
    created := None;
    if HasDeck(existing.seats, userIndex) {
      return AlreadyHasDeck, None;
    }
    var stored := existing.AssociateWithExistingDraft(cube.mainboard, userIndex, oracles, db);
    outcome := if stored then UpdatedDraft else Failed;
  }
}
