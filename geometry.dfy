/**
 * Screen geometry used for hit-testing: the cat image, the 3 by 3 grid of
 * shop cells, and the per-frame limit on the shop's scroll offset.
 * Rectangles follow pygame's convention: a point is inside when
 * left <= x < left + width and top <= y < top + height.
 */
module Geometry {

  import opened Wrappers
  import Shop

  const WIDTH: int := 480
  const HEIGHT: int := 800
  const ROW_HEIGHT: int := 80

  datatype Rect = Rect(left: int, top: int, width: int, height: int)

  predicate Contains(r: Rect, x: int, y: int) {
    r.left <= x < r.left + r.width && r.top <= y < r.top + r.height
  }

  /** The cat image: scaled to (WIDTH - 40) square and centred at (WIDTH / 2, HEIGHT / 3). */
  function ImageRect(): (r: Rect)
    ensures r == Rect(20, 46, 440, 440)
  {
    var side := WIDTH - 40;
    Rect(WIDTH / 2 - side / 2, HEIGHT / 3 - side / 2, side, side)
  }

  /** The shop cell of offer `idx`, in row idx / 3 and column idx % 3, moved up by `scrollY`. */
  function CellRect(idx: nat, scrollY: int): (r: Rect)
    ensures r.width == 140 && r.height == 60
    ensures r.left == 20 + (idx % 3) * 160 && r.top == 550 + (idx / 3) * ROW_HEIGHT - scrollY
    ensures 20 <= r.left && r.left + r.width <= WIDTH
    ensures idx < Shop.MAX_ABILITIES && scrollY == 0 ==> 550 <= r.top && r.top + r.height <= HEIGHT
  {
    var row := idx / 3;
    var col := idx % 3;
    Rect(20 + col * (WIDTH / 3 - 10 + 10), 550 + row * ROW_HEIGHT - scrollY, WIDTH / 3 - 20, 60)
  }

  /**
   * The cell under a point, computed directly from the coordinates: an
   * independent description of the grid against which CellRect is checked.
   */
  function CellAt(x: int, y: int, scrollY: int): (r: Option<nat>)
    ensures r.Some? ==> r.value < Shop.MAX_ABILITIES
  {
    var dx := x - 20;
    var dy := y + scrollY - 550;
    if dx < 0 || dy < 0 then None
    else if dx / 160 < 3 && dx % 160 < 140 && dy / ROW_HEIGHT < 3 && dy % ROW_HEIGHT < 60
    then Some(dy / ROW_HEIGHT * 3 + dx / 160)
    else None
  }

  /** A point lies in cell `idx` exactly when CellAt reports `idx`. */
  lemma CellAtExact(idx: nat, scrollY: int, x: int, y: int)
    requires idx < Shop.MAX_ABILITIES
    ensures Contains(CellRect(idx, scrollY), x, y) <==> CellAt(x, y, scrollY) == Some(idx)
  {
    var row, col := idx / 3, idx % 3;
    var dx, dy := x - 20, y + scrollY - 550;
    assert idx == row * 3 + col && 0 <= col < 3 && 0 <= row < 3;
    if Contains(CellRect(idx, scrollY), x, y) {
      assert col * 160 <= dx < col * 160 + 140;
      assert dx / 160 == col && dx % 160 == dx - col * 160;
      assert row * 80 <= dy < row * 80 + 60;
      assert dy / 80 == row && dy % 80 == dy - row * 80;
    }
    if CellAt(x, y, scrollY) == Some(idx) {
      var r, c := dy / 80, dx / 160;
      assert idx == r * 3 + c && 0 <= c < 3;
      assert r == row && c == col;
    }
  }

  /** The nine cells are pairwise disjoint, so one point selects at most one offer. */
  lemma CellsDisjoint(i: nat, j: nat, scrollY: int, x: int, y: int)
    requires i < Shop.MAX_ABILITIES && j < Shop.MAX_ABILITIES
    requires Contains(CellRect(i, scrollY), x, y) && Contains(CellRect(j, scrollY), x, y)
    ensures i == j
  {
    CellAtExact(i, scrollY, x, y);
    CellAtExact(j, scrollY, x, y);
  }

  /** With the shop unscrolled, no point hits both the cat image and a shop cell. */
  lemma ImageMissesCells(idx: nat, x: int, y: int)
    requires idx < Shop.MAX_ABILITIES
    requires Contains(ImageRect(), x, y)
    ensures !Contains(CellRect(idx, 0), x, y)
  {
  }

  /** The upper end of the scroll range: rows of the nine-cell window minus the visible height. */
  function ScrollLimit(): (r: int)
    ensures r == -460
  {
    (Shop.MAX_ABILITIES / 3) * ROW_HEIGHT - (HEIGHT - 100)
  }

  /**
   * The per-frame clamp max(0, min(scrollY, ScrollLimit())). Because the
   * limit is negative, the result is 0 whatever the offset was.
   */
  function ClampedScroll(scrollY: int): (r: int)
    ensures r == 0
  {
    Max(0, Min(scrollY, ScrollLimit()))
  }
}
