/**
 * The integer grid that alarm and timer cards live on: the layout settings,
 * card rectangles, the half-open collision test, and the clamp-then-commit
 * rules a card applies while it is moved, resized or dropped.
 */
module Grid {

  /** Grid settings: `columns × rows` cells and whether cell edges are drawn. */
  datatype GridLayoutConfig = GridLayoutConfig(columns: int, rows: int, showEdges: bool)

  const DefaultGridLayoutConfig: GridLayoutConfig := GridLayoutConfig(4, 5, false)

  /** The edges checkbox: flips `showEdges`, keeps the grid size. */
  function ToggleEdges(config: GridLayoutConfig): (r: GridLayoutConfig)
    ensures r.showEdges != config.showEdges
    ensures r.columns == config.columns && r.rows == config.rows
  {
    config.(showEdges := !config.showEdges)
  }

  /** Toggling the edges twice gives back the settings. */
  lemma ToggleEdgesTwice(config: GridLayoutConfig)
    ensures ToggleEdges(ToggleEdges(config)) == config
  {
  }

  /** A card's cells: columns `x .. x+width-1`, rows `y .. y+height-1`. */
  datatype Rect = Rect(x: int, y: int, width: int, height: int)

  /** A card on the grid, as the collision test sees it. */
  datatype Placed = Placed(id: string, bounds: Rect)

  /** Whether cell `(cx, cy)` belongs to `r`. */
  predicate Covers(r: Rect, cx: int, cy: int) {
    r.x <= cx < r.x + r.width && r.y <= cy < r.y + r.height
  }

  /** The card collision test: the half-open column ranges and row ranges both intersect. */
  predicate Overlap(a: Rect, b: Rect) {
    a.x < b.x + b.width && a.x + a.width > b.x && a.y < b.y + b.height && a.y + a.height > b.y
  }

  /** For cards at least one cell in size, overlapping means sharing a cell. */
  lemma OverlapIsSharedCell(a: Rect, b: Rect)
    requires a.width >= 1 && a.height >= 1 && b.width >= 1 && b.height >= 1
    ensures Overlap(a, b) <==> exists cx, cy :: Covers(a, cx, cy) && Covers(b, cx, cy)
  {
    if Overlap(a, b) {
      var cx := if a.x < b.x then b.x else a.x;
      var cy := if a.y < b.y then b.y else a.y;
      assert Covers(a, cx, cy) && Covers(b, cx, cy);
    }
  }

  /**
   * `items.any { it.id != id && Overlap(r, it) }`: some card other than the one
   * with this id overlaps `r`.
   */
  function Collides(others: seq<Placed>, id: string, r: Rect): (hit: bool)
    ensures hit <==> exists i :: 0 <= i < |others| && others[i].id != id && Overlap(r, others[i].bounds)
  {
    if |others| == 0 then false
    else (others[0].id != id && Overlap(r, others[0].bounds)) || Collides(others[1..], id, r)
  }

  /** A card never collides with itself, wherever it is: its own id is skipped. */
  lemma {:induction false} NeverCollidesWithSelf(id: string, r: Rect, s: Rect)
    requires Overlap(r, s)
    ensures !Collides([Placed(id, s)], id, r)
  {
  }

  /** No two cards with different ids overlap. */
  ghost predicate Disjoint(layout: seq<Placed>) {
    forall i, j :: 0 <= i < |layout| && 0 <= j < |layout| && layout[i].id != layout[j].id ==>
      !Overlap(layout[i].bounds, layout[j].bounds)
  }

  /**
   * Putting card `k` at a place where it collides with nothing keeps the layout
   * free of overlaps.
   */
  lemma {:induction false} CollisionFreeUpdateKeepsDisjoint(layout: seq<Placed>, k: int, r: Rect)
    requires Disjoint(layout) && 0 <= k < |layout|
    requires !Collides(layout, layout[k].id, r)
    ensures Disjoint(layout[k := Placed(layout[k].id, r)])
  {
    var after := layout[k := Placed(layout[k].id, r)];
    forall i, j | 0 <= i < |after| && 0 <= j < |after| && after[i].id != after[j].id
      ensures !Overlap(after[i].bounds, after[j].bounds)
    {
      if i == k {
        assert !Overlap(r, layout[j].bounds);
      } else if j == k {
        assert !Overlap(r, layout[i].bounds);
      }
    }
  }

  // ------------------------------------------------------------------ clamps

  function Dist(a: int, b: int): nat {
    if a <= b then b - a else a - b
  }

  /**
   * Kotlin's `v.coerceIn(lo, hi)`: the value of `[lo, hi]` nearest `v`. Kotlin
   * throws when `lo > hi`.
   */
  function CoerceIn(v: int, lo: int, hi: int): (r: int)
    requires lo <= hi
    ensures lo <= r <= hi
    ensures lo <= v <= hi ==> r == v
    ensures forall w :: lo <= w <= hi ==> Dist(r, v) <= Dist(w, v)
  {
    if v < lo then lo else if v > hi then hi else v
  }

  /** A move can be clamped only when the card fits the grid. */
  predicate CanClampMove(config: GridLayoutConfig, width: int, height: int) {
    width <= config.columns && height <= config.rows
  }

  /** A resize can be clamped only when the card's corner is inside the grid. */
  predicate CanClampResize(config: GridLayoutConfig, x: int, y: int) {
    x < config.columns && y < config.rows
  }

  /** The card lies within columns `0 .. columns-1` and rows `0 .. rows-1`. */
  predicate InGrid(config: GridLayoutConfig, r: Rect) {
    0 <= r.x && 0 <= r.y && r.x + r.width <= config.columns && r.y + r.height <= config.rows
  }

  /** The proposed top-left cell pulled into `[0, columns-width] × [0, rows-height]`. */
  function ClampMove(config: GridLayoutConfig, cur: Rect, col: int, row: int): (r: Rect)
    requires CanClampMove(config, cur.width, cur.height)
    ensures r.width == cur.width && r.height == cur.height
    ensures InGrid(config, r)
    ensures r.x == CoerceIn(col, 0, config.columns - cur.width)
    ensures r.y == CoerceIn(row, 0, config.rows - cur.height)
  {
    cur.(x := CoerceIn(col, 0, config.columns - cur.width), y := CoerceIn(row, 0, config.rows - cur.height))
  }

  /** The proposed size pulled into `[1, columns-x] × [1, rows-y]`; the corner stays. */
  function ClampResize(config: GridLayoutConfig, cur: Rect, width: int, height: int): (r: Rect)
    requires CanClampResize(config, cur.x, cur.y)
    ensures r.x == cur.x && r.y == cur.y
    ensures 1 <= r.width && r.x + r.width <= config.columns
    ensures 1 <= r.height && r.y + r.height <= config.rows
    ensures r.width == CoerceIn(width, 1, config.columns - cur.x)
    ensures r.height == CoerceIn(height, 1, config.rows - cur.y)
  {
    cur.(width := CoerceIn(width, 1, config.columns - cur.x), height := CoerceIn(height, 1, config.rows - cur.y))
  }

  /**
   * One drag step of a move: the clamped cell is taken only when no other card
   * collides with it; otherwise the card stays where it is.
   */
  function TryMove(others: seq<Placed>, id: string, cur: Rect, config: GridLayoutConfig, col: int, row: int): (r: Rect)
    requires CanClampMove(config, cur.width, cur.height)
    ensures r.width == cur.width && r.height == cur.height
    ensures r == cur || (InGrid(config, r) && !Collides(others, id, r))
    ensures !Collides(others, id, ClampMove(config, cur, col, row)) ==> r == ClampMove(config, cur, col, row)
    ensures Collides(others, id, ClampMove(config, cur, col, row)) ==> r == cur
  {
    var target := ClampMove(config, cur, col, row);
    if Collides(others, id, target) then cur else target
  }

  /**
   * One drag step of a resize: the clamped size is taken only when no other
   * card collides with it; the corner never moves.
   */
  function TryResize(others: seq<Placed>, id: string, cur: Rect, config: GridLayoutConfig, width: int, height: int): (r: Rect)
    requires CanClampResize(config, cur.x, cur.y)
    ensures r.x == cur.x && r.y == cur.y
    ensures r == cur || (1 <= r.width && r.x + r.width <= config.columns &&
                         1 <= r.height && r.y + r.height <= config.rows && !Collides(others, id, r))
    ensures !Collides(others, id, ClampResize(config, cur, width, height)) ==> r == ClampResize(config, cur, width, height)
    ensures Collides(others, id, ClampResize(config, cur, width, height)) ==> r == cur
  {
    var target := ClampResize(config, cur, width, height);
    if Collides(others, id, target) then cur else target
  }

  /**
   * Dropping a dragged card: the snapped cell is clamped into the grid and
   * kept if nothing collides there; otherwise the card goes back to the cell
   * `home` it had when the gesture began. The size is the card's current size.
   */
  function SnapDrop(others: seq<Placed>, id: string, home: Rect, size: Rect, config: GridLayoutConfig, col: int, row: int): (r: Rect)
    requires CanClampMove(config, size.width, size.height)
    ensures r.width == size.width && r.height == size.height
    ensures (r.x == home.x && r.y == home.y) || (InGrid(config, r) && !Collides(others, id, r))
    ensures !Collides(others, id, ClampMove(config, size, col, row)) ==> r == ClampMove(config, size, col, row)
    ensures Collides(others, id, ClampMove(config, size, col, row)) ==> r.x == home.x && r.y == home.y
  {
    var target := ClampMove(config, size, col, row);
    if Collides(others, id, target) then size.(x := home.x, y := home.y) else target
  }

  /** A drag step keeps a layout that had no overlaps free of overlaps. */
  lemma MoveKeepsDisjoint(layout: seq<Placed>, k: int, config: GridLayoutConfig, col: int, row: int)
    requires Disjoint(layout) && 0 <= k < |layout|
    requires CanClampMove(config, layout[k].bounds.width, layout[k].bounds.height)
    ensures Disjoint(layout[k := Placed(layout[k].id, TryMove(layout, layout[k].id, layout[k].bounds, config, col, row))])
  {
    var r := TryMove(layout, layout[k].id, layout[k].bounds, config, col, row);
    if r == layout[k].bounds {
      assert layout[k := Placed(layout[k].id, r)] == layout;
    } else {
      CollisionFreeUpdateKeepsDisjoint(layout, k, r);
    }
  }

  /** A resize step keeps a layout that had no overlaps free of overlaps. */
  lemma ResizeKeepsDisjoint(layout: seq<Placed>, k: int, config: GridLayoutConfig, width: int, height: int)
    requires Disjoint(layout) && 0 <= k < |layout|
    requires CanClampResize(config, layout[k].bounds.x, layout[k].bounds.y)
    ensures Disjoint(layout[k := Placed(layout[k].id, TryResize(layout, layout[k].id, layout[k].bounds, config, width, height))])
  {
    var r := TryResize(layout, layout[k].id, layout[k].bounds, config, width, height);
    if r == layout[k].bounds {
      assert layout[k := Placed(layout[k].id, r)] == layout;
    } else {
      CollisionFreeUpdateKeepsDisjoint(layout, k, r);
    }
  }
}
