/**
 * Where a newly created alarm or timer card is put: the first grid cell, in
 * row-major order, that is not the top-left cell of an existing card of the
 * same kind; `(0, 0)` when every cell is such an anchor.
 */
module Placement {
  import opened Grid

  /** Some existing card has its top-left corner at `(x, y)`. */
  predicate IsAnchor(anchors: seq<(int, int)>, x: int, y: int) {
    (x, y) in anchors
  }

  /** `(x1, y1)` is visited before `(x2, y2)` when scanning rows top to bottom. */
  predicate RowMajorBefore(x1: int, y1: int, x2: int, y2: int) {
    y1 < y2 || (y1 == y2 && x1 < x2)
  }

  /** `(x, y)` is a free grid cell and every grid cell before it is an anchor. */
  ghost predicate FirstFree(anchors: seq<(int, int)>, columns: int, rows: int, x: int, y: int) {
    0 <= x < columns && 0 <= y < rows && !IsAnchor(anchors, x, y)
    && forall xx, yy :: 0 <= xx < columns && 0 <= yy < rows && RowMajorBefore(xx, yy, x, y) ==> IsAnchor(anchors, xx, yy)
  }

  /** Every grid cell is an anchor (or the grid has no cells). */
  ghost predicate AllAnchored(anchors: seq<(int, int)>, columns: int, rows: int) {
    forall xx, yy :: 0 <= xx < columns && 0 <= yy < rows ==> IsAnchor(anchors, xx, yy)
  }

  /** The cell a new card gets. */
  ghost predicate Chosen(anchors: seq<(int, int)>, columns: int, rows: int, x: int, y: int) {
    FirstFree(anchors, columns, rows, x, y) || (AllAnchored(anchors, columns, rows) && x == 0 && y == 0)
  }

  /** The top-left cells of a list of cards. */
  function Anchors(cards: seq<Placed>): (a: seq<(int, int)>)
    ensures |a| == |cards|
    ensures forall i :: 0 <= i < |cards| ==> a[i] == (cards[i].bounds.x, cards[i].bounds.y)
  {
    if |cards| == 0 then [] else [(cards[0].bounds.x, cards[0].bounds.y)] + Anchors(cards[1..])
  }

  /** The nested `for (y …) for (x …)` scan with its `found` flag and breaks. */
  method FirstFreeCell(anchors: seq<(int, int)>, columns: int, rows: int) returns (newX: int, newY: int)
    ensures Chosen(anchors, columns, rows, newX, newY)
  {
    newX, newY := 0, 0;
    var found := false;
    var y := 0;
    while y < rows
      invariant 0 <= y && (rows >= 0 ==> y <= rows)
      invariant found ==> FirstFree(anchors, columns, rows, newX, newY)
      invariant !found ==> newX == 0 && newY == 0
      invariant !found ==> forall xx, yy :: 0 <= xx < columns && 0 <= yy < y ==> IsAnchor(anchors, xx, yy)
    {
      var x := 0;
      while x < columns
        invariant 0 <= x && (columns >= 0 ==> x <= columns)
        invariant found ==> FirstFree(anchors, columns, rows, newX, newY)
        invariant !found ==> newX == 0 && newY == 0
        invariant !found ==> forall xx, yy :: 0 <= xx < columns && 0 <= yy < y ==> IsAnchor(anchors, xx, yy)
        invariant !found ==> forall xx :: 0 <= xx < x ==> IsAnchor(anchors, xx, y)
      {
        if !IsAnchor(anchors, x, y) {
          newX, newY := x, y;
          found := true;
          break;
        }
        x := x + 1;
      }
      if found {
        break;
      }
      y := y + 1;
    }
  }

  /** The chosen cell is unique: the scan is a function of the anchors and the grid size. */
  lemma ChosenUnique(anchors: seq<(int, int)>, columns: int, rows: int, x1: int, y1: int, x2: int, y2: int)
    requires Chosen(anchors, columns, rows, x1, y1) && Chosen(anchors, columns, rows, x2, y2)
    ensures x1 == x2 && y1 == y2
  {
  }

  /**
   * The scan looks only at top-left corners, so a card spanning two columns
   * does not stop a new card from being put on its second column: on the
   * default 4 × 5 grid, with one 2-wide card at `(0, 0)`, the new 1 × 1 card
   * goes to `(1, 0)`, inside the existing card.
   */
  lemma PlacementIgnoresSpans(x: int, y: int)
    requires Chosen(Anchors([Placed("a", Rect(0, 0, 2, 1))]), 4, 5, x, y)
    ensures x == 1 && y == 0
    ensures Overlap(Rect(x, y, 1, 1), Rect(0, 0, 2, 1))
  {
    var anchors := Anchors([Placed("a", Rect(0, 0, 2, 1))]);
    assert anchors == [(0, 0)];
    assert !IsAnchor(anchors, 1, 0);
    assert FirstFree(anchors, 4, 5, 1, 0);
    ChosenUnique(anchors, 4, 5, x, y, 1, 0);
  }

  /**
   * On a grid with at least one cell, the new card lands on an existing
   * card's top-left corner exactly when every cell is such a corner, and
   * then it is put on `(0, 0)`.
   */
  lemma FullGridStacksOnOrigin(anchors: seq<(int, int)>, columns: int, rows: int, x: int, y: int)
    requires columns >= 1 && rows >= 1
    requires Chosen(anchors, columns, rows, x, y)
    ensures IsAnchor(anchors, x, y) <==> AllAnchored(anchors, columns, rows)
    ensures AllAnchored(anchors, columns, rows) ==> x == 0 && y == 0
  {
    if FirstFree(anchors, columns, rows, x, y) {
      assert !IsAnchor(anchors, x, y);
    }
  }
}
