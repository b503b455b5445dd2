/**
 * Autotile connectivity masks and the two fixed layouts: the 16-tile 4×4
 * layout and the 47-tile layout that adds the diagonal (inner-corner)
 * variations.
 */
module AutotileLayout {

  /**
   * An 8-bit connectivity mask: a set bit says the tile continues into that
   * neighbour. Four cardinal bits, then four diagonal bits.
   */
  type TileEdge = bv8

  const NONE: TileEdge := 0
  const TOP: TileEdge := 1
  const RIGHT: TileEdge := 2
  const BOTTOM: TileEdge := 4
  const LEFT: TileEdge := 8
  const TOP_LEFT: TileEdge := 16
  const TOP_RIGHT: TileEdge := 32
  const BOTTOM_RIGHT: TileEdge := 64
  const BOTTOM_LEFT: TileEdge := 128

  const CARDINALS: TileEdge := TOP | RIGHT | BOTTOM | LEFT
  const DIAGONALS: TileEdge := TOP_LEFT | TOP_RIGHT | BOTTOM_RIGHT | BOTTOM_LEFT

  /** The mask has the connection `flag`. */
  predicate Has(e: TileEdge, flag: TileEdge)
  {
    e & flag != 0
  }

  /** A diagonal connection is meaningful only when both cardinal connections beside it are present. */
  predicate DiagonalsSupported(e: TileEdge)
  {
    && (Has(e, TOP_LEFT) ==> Has(e, TOP) && Has(e, LEFT))
    && (Has(e, TOP_RIGHT) ==> Has(e, TOP) && Has(e, RIGHT))
    && (Has(e, BOTTOM_RIGHT) ==> Has(e, BOTTOM) && Has(e, RIGHT))
    && (Has(e, BOTTOM_LEFT) ==> Has(e, BOTTOM) && Has(e, LEFT))
  }

  predicate Distinct(s: seq<TileEdge>)
  {
    forall i, j :: 0 <= i < j < |s| ==> s[i] != s[j]
  }

  // ---------------------------------------------------------------------
  // The 16-tile layout
  // ---------------------------------------------------------------------

  /** The 4×4 Unity-style layout, row by row. */
  const TILE_16_EDGES: seq<TileEdge> := [
    // row 0: isolated, left end, horizontal bar, right end
    NONE, RIGHT, LEFT | RIGHT, LEFT,
    // row 1
    BOTTOM, BOTTOM | RIGHT, BOTTOM | LEFT | RIGHT, BOTTOM | LEFT,
    // row 2
    TOP | BOTTOM, TOP | BOTTOM | RIGHT, TOP | BOTTOM | LEFT | RIGHT, TOP | BOTTOM | LEFT,
    // row 3
    TOP, TOP | RIGHT, TOP | LEFT | RIGHT, TOP | LEFT
  ]

  /** The vertical connections of a row of the 16-tile layout: none, down, both, up. */
  function RowConnections(row: int): (e: TileEdge)
    requires 0 <= row < 4
    ensures e & (LEFT | RIGHT | DIAGONALS) == 0
  {
    [NONE, BOTTOM, TOP | BOTTOM, TOP][row]
  }

  /** The horizontal connections of a column of the 16-tile layout: none, right, both, left. */
  function ColumnConnections(col: int): (e: TileEdge)
    requires 0 <= col < 4
    ensures e & (TOP | BOTTOM | DIAGONALS) == 0
  {
    [NONE, RIGHT, LEFT | RIGHT, LEFT][col]
  }

  /** Entry i of the 16-tile layout combines its row's vertical and its column's horizontal connections. */
  lemma Tile16Layout(i: int)
    requires 0 <= i < 16
    ensures |TILE_16_EDGES| == 16
    ensures TILE_16_EDGES[i] == RowConnections(i / 4) | ColumnConnections(i % 4)
  {
  }

  /** No 16-tile mask has a diagonal bit, and the 16 masks are pairwise distinct. */
  lemma Tile16NoDiagonals()
    ensures forall i :: 0 <= i < |TILE_16_EDGES| ==> TILE_16_EDGES[i] & DIAGONALS == 0
    ensures Distinct(TILE_16_EDGES)
  {
    forall i, j | 0 <= i < j < |TILE_16_EDGES|
      ensures TILE_16_EDGES[i] != TILE_16_EDGES[j]
    {
      Tile16Layout(i);
      Tile16Layout(j);
      if i / 4 != j / 4 {
        RowsDiffer(i / 4, j / 4, i % 4, j % 4);
      } else {
        ColumnsDiffer(i / 4, i % 4, j % 4);
      }
    }
  }

  lemma RowsDiffer(r1: int, r2: int, c1: int, c2: int)
    requires 0 <= r1 < 4 && 0 <= r2 < 4 && 0 <= c1 < 4 && 0 <= c2 < 4 && r1 != r2
    ensures RowConnections(r1) | ColumnConnections(c1) != RowConnections(r2) | ColumnConnections(c2)
  {
  }

  lemma ColumnsDiffer(r: int, c1: int, c2: int)
    requires 0 <= r < 4 && 0 <= c1 < 4 && 0 <= c2 < 4 && c1 != c2
    ensures RowConnections(r) | ColumnConnections(c1) != RowConnections(r) | ColumnConnections(c2)
  {
  }

  /** The 16-tile layout holds every mask made of cardinal bits only. */
  lemma Tile16Complete(m: TileEdge)
    ensures m & DIAGONALS == 0 <==> m in TILE_16_EDGES
  {
  }

  // ---------------------------------------------------------------------
  // The 47-tile layout
  // ---------------------------------------------------------------------

  const ALL_SIDES: TileEdge := TOP | BOTTOM | LEFT | RIGHT

  /** Masks 16 to 30 of the 47-tile layout: all four sides connected, with one to four diagonals. */
  const INNER_CORNER_EDGES: seq<TileEdge> := [
    // one diagonal
    ALL_SIDES | BOTTOM_RIGHT,
    ALL_SIDES | BOTTOM_LEFT,
    ALL_SIDES | TOP_RIGHT,
    ALL_SIDES | TOP_LEFT,
    // two diagonals on one side
    ALL_SIDES | TOP_LEFT | TOP_RIGHT,
    ALL_SIDES | BOTTOM_LEFT | BOTTOM_RIGHT,
    ALL_SIDES | TOP_LEFT | BOTTOM_LEFT,
    ALL_SIDES | TOP_RIGHT | BOTTOM_RIGHT,
    // opposite diagonals
    ALL_SIDES | TOP_LEFT | BOTTOM_RIGHT,
    ALL_SIDES | TOP_RIGHT | BOTTOM_LEFT,
    // three diagonals
    ALL_SIDES | TOP_LEFT | TOP_RIGHT | BOTTOM_LEFT,
    ALL_SIDES | TOP_LEFT | TOP_RIGHT | BOTTOM_RIGHT,
    ALL_SIDES | TOP_LEFT | BOTTOM_LEFT | BOTTOM_RIGHT,
    ALL_SIDES | TOP_RIGHT | BOTTOM_LEFT | BOTTOM_RIGHT,
    // all four
    ALL_SIDES | TOP_LEFT | TOP_RIGHT | BOTTOM_LEFT | BOTTOM_RIGHT
  ]

  /** Masks 31 to 46 of the 47-tile layout: one side open, with the diagonals the other sides allow. */
  const SIDE_CORNER_EDGES: seq<TileEdge> := [
    // open on the left
    BOTTOM | RIGHT | BOTTOM_RIGHT,
    TOP | RIGHT | TOP_RIGHT,
    TOP | BOTTOM | RIGHT | TOP_RIGHT,
    TOP | BOTTOM | RIGHT | BOTTOM_RIGHT,
    TOP | BOTTOM | RIGHT | TOP_RIGHT | BOTTOM_RIGHT,
    // open on the right
    BOTTOM | LEFT | BOTTOM_LEFT,
    TOP | LEFT | TOP_LEFT,
    TOP | BOTTOM | LEFT | TOP_LEFT,
    TOP | BOTTOM | LEFT | BOTTOM_LEFT,
    TOP | BOTTOM | LEFT | TOP_LEFT | BOTTOM_LEFT,
    // open at the top
    LEFT | RIGHT | BOTTOM | BOTTOM_LEFT,
    LEFT | RIGHT | BOTTOM | BOTTOM_RIGHT,
    LEFT | RIGHT | BOTTOM | BOTTOM_LEFT | BOTTOM_RIGHT,
    // open at the bottom
    LEFT | RIGHT | TOP | TOP_LEFT,
    LEFT | RIGHT | TOP | TOP_RIGHT,
    LEFT | RIGHT | TOP | TOP_LEFT | TOP_RIGHT
  ]

  /** The 47-tile layout, in the order the table is built. */
  const TILE_47_EDGES: seq<TileEdge> := TILE_16_EDGES + INNER_CORNER_EDGES + SIDE_CORNER_EDGES

  /** Builds the 47-tile table: the sixteen 16-tile masks, then the diagonal variations. */
  method Generate47TileEdges() returns (edges: seq<TileEdge>)
    ensures edges == TILE_47_EDGES
  {
    edges := [];
    var i := 0;
    while i < 16
      invariant 0 <= i <= 16
      invariant edges == TILE_16_EDGES[..i]
    {
      edges := edges + [TILE_16_EDGES[i]];
      i := i + 1;
    }
    assert edges == TILE_16_EDGES;
    edges := PushInnerCorners(edges);
    edges := PushSideCorners(edges);
  }

  /** The pushes that add the all-sides masks with one to four diagonals. */
  method PushInnerCorners(start: seq<TileEdge>) returns (edges: seq<TileEdge>)
    ensures edges == start + INNER_CORNER_EDGES
  {
    edges := start;
    edges := edges + [ALL_SIDES | BOTTOM_RIGHT];
    edges := edges + [ALL_SIDES | BOTTOM_LEFT];
    edges := edges + [ALL_SIDES | TOP_RIGHT];
    edges := edges + [ALL_SIDES | TOP_LEFT];
    assert edges == start + INNER_CORNER_EDGES[..4];

    edges := edges + [ALL_SIDES | TOP_LEFT | TOP_RIGHT];
    edges := edges + [ALL_SIDES | BOTTOM_LEFT | BOTTOM_RIGHT];
    edges := edges + [ALL_SIDES | TOP_LEFT | BOTTOM_LEFT];
    edges := edges + [ALL_SIDES | TOP_RIGHT | BOTTOM_RIGHT];
    assert edges == start + INNER_CORNER_EDGES[..8];

    edges := edges + [ALL_SIDES | TOP_LEFT | BOTTOM_RIGHT];
    edges := edges + [ALL_SIDES | TOP_RIGHT | BOTTOM_LEFT];
    assert edges == start + INNER_CORNER_EDGES[..10];

    edges := edges + [ALL_SIDES | TOP_LEFT | TOP_RIGHT | BOTTOM_LEFT];
    edges := edges + [ALL_SIDES | TOP_LEFT | TOP_RIGHT | BOTTOM_RIGHT];
    edges := edges + [ALL_SIDES | TOP_LEFT | BOTTOM_LEFT | BOTTOM_RIGHT];
    edges := edges + [ALL_SIDES | TOP_RIGHT | BOTTOM_LEFT | BOTTOM_RIGHT];

    edges := edges + [ALL_SIDES | TOP_LEFT | TOP_RIGHT | BOTTOM_LEFT | BOTTOM_RIGHT];
  }

  /** The pushes that add the masks with one side open and the diagonals the other sides allow. */
  method PushSideCorners(start: seq<TileEdge>) returns (edges: seq<TileEdge>)
    ensures edges == start + SIDE_CORNER_EDGES
  {
    edges := start;
    edges := edges + [BOTTOM | RIGHT | BOTTOM_RIGHT];
    edges := edges + [TOP | RIGHT | TOP_RIGHT];
    edges := edges + [TOP | BOTTOM | RIGHT | TOP_RIGHT];
    edges := edges + [TOP | BOTTOM | RIGHT | BOTTOM_RIGHT];
    edges := edges + [TOP | BOTTOM | RIGHT | TOP_RIGHT | BOTTOM_RIGHT];
    assert edges == start + SIDE_CORNER_EDGES[..5];

    edges := edges + [BOTTOM | LEFT | BOTTOM_LEFT];
    edges := edges + [TOP | LEFT | TOP_LEFT];
    edges := edges + [TOP | BOTTOM | LEFT | TOP_LEFT];
    edges := edges + [TOP | BOTTOM | LEFT | BOTTOM_LEFT];
    edges := edges + [TOP | BOTTOM | LEFT | TOP_LEFT | BOTTOM_LEFT];
    assert edges == start + SIDE_CORNER_EDGES[..10];

    edges := edges + [LEFT | RIGHT | BOTTOM | BOTTOM_LEFT];
    edges := edges + [LEFT | RIGHT | BOTTOM | BOTTOM_RIGHT];
    edges := edges + [LEFT | RIGHT | BOTTOM | BOTTOM_LEFT | BOTTOM_RIGHT];

    edges := edges + [LEFT | RIGHT | TOP | TOP_LEFT];
    edges := edges + [LEFT | RIGHT | TOP | TOP_RIGHT];
    edges := edges + [LEFT | RIGHT | TOP | TOP_LEFT | TOP_RIGHT];
  }

  /** The 47-tile table has 47 entries, starting with the 16-tile table. */
  lemma Tile47Shape()
    ensures |TILE_47_EDGES| == 47
    ensures TILE_47_EDGES[..16] == TILE_16_EDGES
  {
    assert TILE_47_EDGES == TILE_16_EDGES + (INNER_CORNER_EDGES + SIDE_CORNER_EDGES);
  }

  /** Masks 16 to 30 connect on all four sides, carry at least one supported diagonal, and differ pairwise. */
  lemma InnerCornerFacts()
    ensures forall i :: 0 <= i < |INNER_CORNER_EDGES| ==>
      DiagonalsSupported(INNER_CORNER_EDGES[i]) && INNER_CORNER_EDGES[i] & ALL_SIDES == ALL_SIDES
      && INNER_CORNER_EDGES[i] & DIAGONALS != 0
    ensures Distinct(INNER_CORNER_EDGES)
  {
  }

  /** Masks 31 to 46 leave a side open, carry at least one supported diagonal, and differ pairwise. */
  lemma SideCornerFacts()
    ensures forall i :: 0 <= i < |SIDE_CORNER_EDGES| ==>
      DiagonalsSupported(SIDE_CORNER_EDGES[i]) && SIDE_CORNER_EDGES[i] & ALL_SIDES != ALL_SIDES
      && SIDE_CORNER_EDGES[i] & DIAGONALS != 0
    ensures Distinct(SIDE_CORNER_EDGES)
  {
  }

  /** Two distinct sequences with no common element concatenate to a distinct sequence. */
  lemma DistinctConcat(a: seq<TileEdge>, b: seq<TileEdge>)
    requires Distinct(a) && Distinct(b)
    requires forall i, j :: 0 <= i < |a| && 0 <= j < |b| ==> a[i] != b[j]
    ensures Distinct(a + b)
  {
    forall i, j | 0 <= i < j < |a + b|
      ensures (a + b)[i] != (a + b)[j]
    {
      if j < |a| {
      } else if i < |a| {
        assert (a + b)[j] == b[j - |a|];
      } else {
        assert (a + b)[i] == b[i - |a|] && (a + b)[j] == b[j - |a|];
      }
    }
  }

  /** Every diagonal bit of a 47-tile mask sits between two set cardinal bits. */
  lemma Tile47DiagonalsSupported()
    ensures forall i :: 0 <= i < |TILE_47_EDGES| ==> DiagonalsSupported(TILE_47_EDGES[i])
  {
    Tile16NoDiagonals();
    InnerCornerFacts();
    SideCornerFacts();
    forall i | 0 <= i < |TILE_47_EDGES|
      ensures DiagonalsSupported(TILE_47_EDGES[i])
    {
      assert TILE_47_EDGES[i] in TILE_16_EDGES || TILE_47_EDGES[i] in INNER_CORNER_EDGES
        || TILE_47_EDGES[i] in SIDE_CORNER_EDGES;
    }
  }

  /** The 47 masks are pairwise distinct. */
  lemma Tile47Distinct()
    ensures Distinct(TILE_47_EDGES)
  {
    Tile16NoDiagonals();
    InnerCornerFacts();
    SideCornerFacts();
    DistinctConcat(TILE_16_EDGES, INNER_CORNER_EDGES);
    DistinctConcat(TILE_16_EDGES + INNER_CORNER_EDGES, SIDE_CORNER_EDGES);
  }

  /** The 47-tile layout holds exactly the masks whose diagonal bits are all supported. */
  lemma Tile47Complete(m: TileEdge)
    ensures DiagonalsSupported(m) <==> m in TILE_47_EDGES
  {
    Tile47DiagonalsSupported();
    if DiagonalsSupported(m) {
      if m & DIAGONALS == 0 {
        Tile16Complete(m);
      } else if m & ALL_SIDES == ALL_SIDES {
        assert m in INNER_CORNER_EDGES;
      } else {
        assert m in SIDE_CORNER_EDGES;
      }
    }
  }
}
