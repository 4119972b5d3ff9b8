/**
 * Deck grids: rows {creature, non-creature} by mana-value columns 0..7, each
 * cell a list of card indices (getCardDefaultRowColumn, setupPicks,
 * getDefaultPosition and getCardCol in src/util/draftutil.ts).
 */
module DeckGrid {
  import opened Strings

  /** What the card database knows about a printing. */
  datatype CardDetails = CardDetails(oracleId: string, typeLine: string, cmc: real)

  /**
   * A card instance of a draft. `cmcColumn` is the value the card utilities'
   * `cmcColumn` gives for it; `cardType`, `cardCmc` and `cardOracleId` read
   * `details`.
   */
  datatype Card = Card(details: CardDetails, cmcColumn: int)

  /** `grid[row][col]` is the list of card indices in that cell. */
  type Grid = seq<seq<seq<int>>>

  /** `type.toLowerCase().includes('creature')`. */
  predicate IsCreatureType(typeLine: string) {
    Contains(ToLower(typeLine), "creature")
  }

  /** `Math.max(0, Math.min(7, x))`. */
  function ClampColumn(x: int): (c: int)
    ensures 0 <= c <= 7
    ensures 0 <= x <= 7 ==> c == x
    ensures x < 0 ==> c == 0
    ensures x > 7 ==> c == 7
  {
    if x < 0 then 0 else if x > 7 then 7 else x
  }

  /** getCardDefaultRowColumn: row 0 for creatures, 1 otherwise; column is the clamped cmc column. */
  function GetCardDefaultRowColumn(card: Card): (rc: (int, int))
    ensures rc.0 == 0 <==> IsCreatureType(card.details.typeLine)
    ensures rc.0 == 1 <==> !IsCreatureType(card.details.typeLine)
    ensures 0 <= rc.1 <= 7
    ensures 0 <= card.cmcColumn <= 7 ==> rc.1 == card.cmcColumn
    ensures card.cmcColumn < 0 ==> rc.1 == 0
    ensures card.cmcColumn > 7 ==> rc.1 == 7
  {
    (if IsCreatureType(card.details.typeLine) then 0 else 1, ClampColumn(card.cmcColumn))
  }

  /** getCardCol: the card's cmc clamped to [0, 7], fractions kept. */
  function GetCardCol(cards: seq<Card>, cardIndex: int): (c: real)
    requires 0 <= cardIndex < |cards|
    ensures 0.0 <= c <= 7.0
    ensures 0.0 <= cards[cardIndex].details.cmc <= 7.0 ==> c == cards[cardIndex].details.cmc
    ensures cards[cardIndex].details.cmc < 0.0 ==> c == 0.0
    ensures cards[cardIndex].details.cmc > 7.0 ==> c == 7.0
  {
    var cmc := cards[cardIndex].details.cmc;
    if cmc < 0.0 then 0.0 else if cmc > 7.0 then 7.0 else cmc
  }

  /** A grid with `rows` rows of `cols` empty cells. */
  function EmptyGrid(rows: nat, cols: nat): Grid {
    seq(rows, _ => seq(cols, _ => []))
  }

  /** Every row has `cols` cells. */
  predicate Shaped(g: Grid, rows: nat, cols: nat) {
    |g| == rows && forall i :: 0 <= i < rows ==> |g[i]| == cols
  }

  /** setupPicks: build the rows and their empty cells with pushes. */
  method SetupPicks(rows: nat, cols: nat) returns (res: Grid)
    ensures Shaped(res, rows, cols)
    ensures forall i, j :: 0 <= i < rows && 0 <= j < cols ==> res[i][j] == []
    ensures res == EmptyGrid(rows, cols)
  {
    res := [];
    var i := 0;
    while i < rows
      invariant 0 <= i <= rows
      invariant res == EmptyGrid(i, cols)
    {
      var row: seq<seq<int>> := [];
      var j := 0;
      while j < cols
        invariant 0 <= j <= cols
        invariant row == seq(j, _ => [])
      {
        row := row + [[]];
        j := j + 1;
      }
      res := res + [row];
      i := i + 1;
    }
  }

  /** getDefaultPosition: the card's default cell and the position it would take at the end of that cell. */
  function GetDefaultPosition(card: Card, picks: Grid): (pos: (int, int, int))
    requires var (row, col) := GetCardDefaultRowColumn(card); row < |picks| && col < |picks[row]|
    ensures (pos.0, pos.1) == GetCardDefaultRowColumn(card)
    ensures pos.2 == |picks[pos.0][pos.1]|
  {
    var (row, col) := GetCardDefaultRowColumn(card);
    (row, col, |picks[row][col]|)
  }

  /** `grid[row][col].push(x)`. */
  function Push(g: Grid, row: nat, col: nat, x: int): (g': Grid)
    requires row < |g| && col < |g[row]|
    ensures |g'| == |g| && forall i :: 0 <= i < |g| ==> |g'[i]| == |g[i]|
  {
    g[row := g[row][col := g[row][col] + [x]]]
  }

  /** A card index and the cell it is pushed into. */
  datatype Placement = Placement(ref: int, row: nat, col: nat)

  predicate Fits(ps: seq<Placement>, rows: nat, cols: nat) {
    forall k :: 0 <= k < |ps| ==> ps[k].row < rows && ps[k].col < cols
  }

  /** The grid after pushing every placement of `ps`, in order. */
  function Placed(g: Grid, ps: seq<Placement>): (g': Grid)
    requires Shaped(g, |g|, 8) && Fits(ps, |g|, 8)
    ensures Shaped(g', |g|, 8)
  {
    if ps == [] then g
    else
      var last := ps[|ps| - 1];
      Push(Placed(g, ps[..|ps| - 1]), last.row, last.col, last.ref)
  }

  /** The indices of `ps` aimed at cell (row, col), in order. */
  function InCell(ps: seq<Placement>, row: int, col: int): seq<int> {
    if ps == [] then []
    else
      var last := ps[|ps| - 1];
      InCell(ps[..|ps| - 1], row, col) + (if last.row == row && last.col == col then [last.ref] else [])
  }

  /** A cell's list holds exactly the indices of the placements aimed at it. */
  lemma {:induction false} InCellMembers(ps: seq<Placement>, row: nat, col: nat, x: int)
    ensures x in InCell(ps, row, col) <==> exists k :: 0 <= k < |ps| && ps[k] == Placement(x, row, col)
  {
    if ps != [] {
      var front := ps[..|ps| - 1];
      InCellMembers(front, row, col, x);
      if exists k :: 0 <= k < |ps| && ps[k] == Placement(x, row, col) {
        var k :| 0 <= k < |ps| && ps[k] == Placement(x, row, col);
        if k < |front| {
          assert front[k] == ps[k];
        }
      }
    }
  }

  /** Placements with strictly increasing indices fill every cell in strictly increasing order, so no index appears twice. */
  lemma {:induction false} InCellIncreasing(ps: seq<Placement>, row: nat, col: nat)
    requires forall i, j :: 0 <= i < j < |ps| ==> ps[i].ref < ps[j].ref
    ensures forall i, j :: 0 <= i < j < |InCell(ps, row, col)| ==> InCell(ps, row, col)[i] < InCell(ps, row, col)[j]
  {
    if ps != [] {
      var front := ps[..|ps| - 1];
      var last := ps[|ps| - 1];
      InCellIncreasing(front, row, col);
      var before := InCell(front, row, col);
      forall y | y in before
        ensures y < last.ref
      {
        InCellMembers(front, row, col, y);
      }
      var cell := InCell(ps, row, col);
      assert cell == before + (if last.row == row && last.col == col then [last.ref] else []);
      forall i, j | 0 <= i < j < |cell|
        ensures cell[i] < cell[j]
      {
        if j >= |before| {
          assert cell[i] == before[i] && before[i] in before;
        }
      }
    }
  }

  /** Each cell of the grid gains exactly the indices aimed at it, in the order they were pushed. */
  lemma {:induction false} PlacedCells(g: Grid, ps: seq<Placement>)
    requires Shaped(g, |g|, 8) && Fits(ps, |g|, 8)
    ensures forall r, c :: 0 <= r < |g| && 0 <= c < 8 ==> Placed(g, ps)[r][c] == g[r][c] + InCell(ps, r, c)
  {
    if ps != [] {
      PlacedCells(g, ps[..|ps| - 1]);
    }
  }

  /** Pushing into a fresh grid: each cell holds exactly the indices aimed at it. */
  lemma PlacedFromEmpty(rows: nat, ps: seq<Placement>)
    requires Fits(ps, rows, 8)
    ensures forall r, c :: 0 <= r < rows && 0 <= c < 8 ==> Placed(EmptyGrid(rows, 8), ps)[r][c] == InCell(ps, r, c)
  {
    PlacedCells(EmptyGrid(rows, 8), ps);
  }

  /** `grid.flat(3)`: every index of the grid, row by row, cell by cell. */
  function FlatGrid(g: Grid): seq<int> {
    if g == [] then [] else FlatRow(g[0]) + FlatGrid(g[1..])
  }

  function FlatRow(row: seq<seq<int>>): seq<int> {
    if row == [] then [] else row[0] + FlatRow(row[1..])
  }

  lemma {:induction false} FlatRowMembers(row: seq<seq<int>>, x: int)
    ensures x in FlatRow(row) <==> exists c :: 0 <= c < |row| && x in row[c]
  {
    if row != [] {
      FlatRowMembers(row[1..], x);
      if exists c :: 0 <= c < |row| && x in row[c] {
        var c :| 0 <= c < |row| && x in row[c];
        if c > 0 {
          assert x in row[1..][c - 1];
        }
      }
    }
  }

  /** The flattened grid holds exactly the indices of its cells. */
  lemma {:induction false} FlatGridMembers(g: Grid, x: int)
    ensures x in FlatGrid(g) <==> exists r, c :: 0 <= r < |g| && 0 <= c < |g[r]| && x in g[r][c]
  {
    if g != [] {
      FlatGridMembers(g[1..], x);
      FlatRowMembers(g[0], x);
      if exists r, c :: 0 <= r < |g| && 0 <= c < |g[r]| && x in g[r][c] {
        var r, c :| 0 <= r < |g| && 0 <= c < |g[r]| && x in g[r][c];
        if r > 0 {
          assert x in g[1..][r - 1][c];
        }
      }
    }
  }

  /** A grid flattens to nothing exactly when all its cells are empty. */
  lemma {:induction false} FlatGridEmpty(g: Grid)
    ensures FlatGrid(g) == [] <==> forall r, c :: 0 <= r < |g| && 0 <= c < |g[r]| ==> g[r][c] == []
  {
    if FlatGrid(g) != [] {
      FlatGridMembers(g, FlatGrid(g)[0]);
    } else {
      forall r, c | 0 <= r < |g| && 0 <= c < |g[r]|
        ensures g[r][c] == []
      {
        if g[r][c] != [] {
          FlatGridMembers(g, g[r][c][0]);
        }
      }
    }
  }
}
