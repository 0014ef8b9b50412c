/**
 * The map editor: a 128 x 32 cache of map cells kept beside the console's
 * map, a view that pans and zooms over it, and block painting of the current
 * sprite into both.
 */
module MapTools {
  import opened Ints
  import opened Config
  import opened Gfx
  import opened EditorCore

  const MapWidth := 128
  const MapHeight := 32
  const CacheSize := 128 * 32

  /** The three map zooms, largest first. */
  const AvailableZooms: seq<real> := [1.0, 0.5, 0.25]

  /** On-screen side of one map cell at zoom z: the floor of 8 * z. */
  function SizeSprite(z: real): (s: int)
    ensures s as real <= 8.0 * z < s as real + 1.0
  {
    (8.0 * z).Floor
  }

  /** Largest horizontal offset the right key reaches at zoom z. */
  function PanLimitX(z: real): (l: int)
    ensures l as real <= (128.0 - 24.0 * z) * z < l as real + 1.0
  {
    ((128.0 - 24.0 * z) * z).Floor
  }

  /** Largest vertical offset the down key reaches at zoom z. */
  function PanLimitY(z: real): (l: int)
    ensures l as real <= (32.0 - 16.0 * z) * z < l as real + 1.0
  {
    ((32.0 - 16.0 * z) * z).Floor
  }

  /** Cell size and pan limits per zoom index, as integers. */
  const CellSizes: seq<int> := [8, 4, 2]
  const PanLimitsX: seq<int> := [104, 58, 30]
  const PanLimitsY: seq<int> := [16, 12, 7]

  /**
   * The integer tables are the floating-point formulas evaluated at each zoom:
   * cells of 8, 4 and 2 pixels and pan limits 104/16, 58/12 and 30/7.
   */
  lemma ZoomTablesMatchFormulas(i: int)
    requires 0 <= i < 3
    ensures SizeSprite(AvailableZooms[i]) == CellSizes[i]
    ensures PanLimitX(AvailableZooms[i]) == PanLimitsX[i] && PanLimitY(AvailableZooms[i]) == PanLimitsY[i]
  {
    if i == 0 {
      assert AvailableZooms[i] == 1.0;
    } else if i == 1 {
      assert AvailableZooms[i] == 0.5;
    } else {
      assert AvailableZooms[i] == 0.25;
    }
  }

  /**
   * One frame of panning along an axis: a press of the back key moves 8 cells
   * back but not below 0, then a press of the forward key moves 8 cells on but
   * not past `limit`.
   */
  function Pan(off: int, back: bool, forward: bool, limit: int): (r: int)
    ensures 0 <= off && 0 <= limit ==> 0 <= r
    ensures forward ==> r <= limit
    ensures !forward && 0 <= off <= limit ==> r <= limit
    ensures !back && !forward ==> r == off
    ensures 0 <= off <= limit ==> off - 8 <= r <= off + 8
  {
    var o := if back then Max(0, off - 8) else off;
    if forward then Min(limit, o + 8) else o
  }

  /** The view: screen columns 0..239 and rows 8..189. */
  function InView(mx: int, my: int): (r: bool)
    ensures r ==> 0 <= mx < 240 && 8 <= my < 190
  {
    PointInRect(mx, my, 0, 8, 240, 190)
  }

  /** A cell size the zoom table produces. */
  predicate IsCellSize(size: int) {
    size == 8 || size == 4 || size == 2
  }

  /**
   * Corner of the selection frame along one axis: the coordinate rounded down
   * to a multiple of the cell size, but never past 192.
   */
  function SelectCorner(m: int, size: int): (r: int)
    requires 0 <= m && IsCellSize(size)
    ensures r % size == 0 && 0 <= r <= 192 && r <= m
    ensures r == 192 || m < r + size
    ensures 8 <= m ==> 8 <= r
  {
    Min(192, m - m % size)
  }

  /**
   * The map cell (along one axis) under a selection corner: the view offset
   * plus the number of whole cells between the view's edge `top` and the corner.
   */
  function CellUnder(corner: int, off: int, size: int, top: int): (c: int)
    requires IsCellSize(size) && corner % size == 0 && (top == 0 || top == 8) && top <= corner
    ensures c == (corner - top) / size + off
    ensures 0 <= off ==> off <= c
  {
    assert (corner - top) % size == 0 by {
      if size == 8 {} else if size == 4 {} else {}
    }
    assert corner - top + off * size == ((corner - top) / size + off) * size;
    (corner - top + off * size) / size
  }

  /** The map cell under mouse coordinate m along one axis. */
  function ViewCell(m: int, off: int, size: int, top: int): (c: int)
    requires IsCellSize(size) && (top == 0 || top == 8) && top <= m
    ensures 0 <= off ==> 0 <= c
  {
    CellUnder(SelectCorner(m, size), off, size, top)
  }

  /** With the view scrolled fully right, a click near the right edge lands on column 128, one past the map. */
  lemma ViewReachesColumn128()
    ensures ViewCell(200, 104, 8, 0) == 128
  {
  }

  /**
   * Cycling the zoom keeps the column offset, so at zoom 0.25 (cell size 2)
   * after panning fully right at zoom 1 the corner of the view is column 200.
   */
  lemma ViewReachesColumn200()
    ensures ViewCell(192, 104, 2, 0) == 200
  {
  }

  /** A cache index split into its map column and row. */
  lemma DecomposeIndex(j: int, x: int, y: int)
    requires 0 <= x < 128
    ensures j == x + 128 * y <==> (j % 128 == x && j / 128 == y)
  {
  }

  /** Whether a zs x zs block at cell (nx, ny) has every cache index in range. */
  function BlockFits(nx: int, ny: int, zs: int): (r: bool)
    ensures r ==> forall x, y :: nx <= x < nx + zs && ny <= y < ny + zs ==> CacheIndex(x, y) < CacheSize
    ensures !r ==> 0 < zs && CacheIndex(nx + zs - 1, ny + zs - 1) >= CacheSize
  {
    zs <= 0 || (nx + zs - 1) + (ny + zs - 1) * 128 < CacheSize
  }

  /** Cache index of map cell (x, y): 128 cells to a row. */
  function CacheIndex(x: int, y: int): int {
    x + 128 * y
  }

  /** Cache index i belongs to the block painted at (nx, ny) with side zs. */
  predicate Covered(i: int, nx: int, ny: int, zs: int) {
    var j := i - nx - 128 * ny;
    0 <= j && j % 128 < zs && j / 128 < zs
  }

  /**
   * `c1` is `c0` with the block at (nx, ny) painted: cell (dx, dy) of the
   * block holds `base + dx + 16 * dy`, and every other index keeps its value.
   */
  ghost predicate CachePainted(c0: seq<int>, c1: seq<int>, nx: int, ny: int, zs: int, base: int) {
    |c1| == |c0| &&
    forall i :: 0 <= i < |c0| ==>
      c1[i] == if Covered(i, nx, ny, zs) then base + (i - nx - 128 * ny) % 128 + 16 * ((i - nx - 128 * ny) / 128) else c0[i]
  }

  /** Block cell (dx, dy) comes before cell (x, y) in the painting order: columns outer, rows inner. */
  predicate Done(dx: int, dy: int, x: int, y: int) {
    dx < x || (dx == x && dy < y)
  }

  /** `c` is `c0` with the cells of the block painted that come before (x, y). */
  ghost predicate PaintedUpTo(c0: seq<int>, c: seq<int>, nx: int, ny: int, zs: int, base: int, x: int, y: int) {
    |c| == |c0| &&
    forall i :: 0 <= i < |c0| ==>
      c[i] == if Covered(i, nx, ny, zs) && Done((i - nx - 128 * ny) % 128, (i - nx - 128 * ny) / 128, x, y)
              then base + (i - nx - 128 * ny) % 128 + 16 * ((i - nx - 128 * ny) / 128) else c0[i]
  }

  /** Writing block cell (x, y) at its cache index extends the painted prefix by that one cell. */
  lemma PaintStep(c0: seq<int>, c: seq<int>, nx: int, ny: int, zs: int, base: int, x: int, y: int)
    requires PaintedUpTo(c0, c, nx, ny, zs, base, x, y)
    requires 0 <= x < zs <= 128 && 0 <= y < zs && 0 <= nx + x + 128 * (ny + y) < |c|
    ensures PaintedUpTo(c0, c[nx + x + 128 * (ny + y) := base + x + 16 * y], nx, ny, zs, base, x, y + 1)
  {
    var idx := nx + x + 128 * (ny + y);
    var c1 := c[idx := base + x + 16 * y];
    forall i | 0 <= i < |c0|
      ensures c1[i] == if Covered(i, nx, ny, zs) && Done((i - nx - 128 * ny) % 128, (i - nx - 128 * ny) / 128, x, y + 1)
                       then base + (i - nx - 128 * ny) % 128 + 16 * ((i - nx - 128 * ny) / 128) else c0[i]
    {
      var j := i - nx - 128 * ny;
      DecomposeIndex(j, x, y);
    }
  }

  /** Once every row of column x is painted, the painted prefix reaches the top of column x + 1. */
  lemma CacheColumnDone(c0: seq<int>, c: seq<int>, nx: int, ny: int, zs: int, base: int, x: int)
    requires PaintedUpTo(c0, c, nx, ny, zs, base, x, zs)
    ensures PaintedUpTo(c0, c, nx, ny, zs, base, x + 1, 0)
  {
  }

  /** Once every column is painted, the whole block is. */
  lemma CacheBlockDone(c0: seq<int>, c: seq<int>, nx: int, ny: int, zs: int, base: int)
    requires PaintedUpTo(c0, c, nx, ny, zs, base, zs, 0)
    ensures CachePainted(c0, c, nx, ny, zs, base)
  {
  }

  /** The map with the cells of the block painted that come before (x, y). */
  ghost predicate CellsPaintedUpTo(m0: map<(int, int), int>, m: map<(int, int), int>, nx: int, ny: int, zs: int, base: int, x: int, y: int) {
    forall cx, cy :: CellOf(m, cx, cy) ==
      if nx <= cx < nx + zs && ny <= cy < ny + zs && Done(cx - nx, cy - ny, x, y)
      then base + (cx - nx) + 16 * (cy - ny) else CellOf(m0, cx, cy)
  }

  /** Writing block cell (x, y) into the map extends the painted prefix by that one cell. */
  lemma CellsPaintStep(m0: map<(int, int), int>, m: map<(int, int), int>, nx: int, ny: int, zs: int, base: int, x: int, y: int)
    requires CellsPaintedUpTo(m0, m, nx, ny, zs, base, x, y)
    requires 0 <= x < zs && 0 <= y < zs
    ensures CellsPaintedUpTo(m0, m[(nx + x, ny + y) := base + x + 16 * y], nx, ny, zs, base, x, y + 1)
  {
    var m1 := m[(nx + x, ny + y) := base + x + 16 * y];
    forall cx, cy
      ensures CellOf(m1, cx, cy) ==
        if nx <= cx < nx + zs && ny <= cy < ny + zs && Done(cx - nx, cy - ny, x, y + 1)
        then base + (cx - nx) + 16 * (cy - ny) else CellOf(m0, cx, cy)
    {
      if (cx, cy) != (nx + x, ny + y) {
        assert CellOf(m1, cx, cy) == CellOf(m, cx, cy);
      }
    }
  }

  /** The same painting on the console's map, cell by cell. */
  ghost predicate CellsPainted(m0: map<(int, int), int>, m1: map<(int, int), int>, nx: int, ny: int, zs: int, base: int) {
    forall x, y :: CellOf(m1, x, y) ==
      if nx <= x < nx + zs && ny <= y < ny + zs then base + (x - nx) + 16 * (y - ny) else CellOf(m0, x, y)
  }

  /** The map counterpart of `CacheColumnDone`. */
  lemma CellsColumnDone(m0: map<(int, int), int>, m: map<(int, int), int>, nx: int, ny: int, zs: int, base: int, x: int)
    requires CellsPaintedUpTo(m0, m, nx, ny, zs, base, x, zs)
    ensures CellsPaintedUpTo(m0, m, nx, ny, zs, base, x + 1, 0)
  {
  }

  /** The map counterpart of `CacheBlockDone`. */
  lemma CellsBlockDone(m0: map<(int, int), int>, m: map<(int, int), int>, nx: int, ny: int, zs: int, base: int)
    requires CellsPaintedUpTo(m0, m, nx, ny, zs, base, zs, 0)
    ensures CellsPainted(m0, m, nx, ny, zs, base)
  {
  }

  /** The cache shows the console's map: index i holds cell (i % 128, i / 128). */
  ghost predicate Mirrors(c: seq<int>, cells: map<(int, int), int>) {
    |c| == CacheSize && forall i :: 0 <= i < CacheSize ==> c[i] == CellOf(cells, i % 128, i / 128)
  }

  /** Every cell of a painted block lands at its own cache index with its own sprite number. */
  lemma PaintedBlockCells(c0: seq<int>, c1: seq<int>, nx: int, ny: int, zs: int, base: int, dx: int, dy: int)
    requires CachePainted(c0, c1, nx, ny, zs, base) && zs <= 128
    requires 0 <= dx < zs && 0 <= dy < zs && 0 <= nx + dx + 128 * (ny + dy) < |c0|
    ensures c1[nx + dx + 128 * (ny + dy)] == base + dx + 16 * dy
  {
    DecomposeIndex(nx + dx + 128 * (ny + dy) - nx - 128 * ny, dx, dy);
  }

  /**
   * Painting a block that lies inside the map's 128 columns keeps the cache
   * and the map in agreement.
   */
  lemma {:induction false} PaintKeepsMirror(c0: seq<int>, c1: seq<int>, m0: map<(int, int), int>, m1: map<(int, int), int>,
                                            nx: int, ny: int, zs: int, base: int)
    requires Mirrors(c0, m0) && 0 <= nx && 0 <= ny && nx + zs <= 128 && 0 <= zs
    requires CachePainted(c0, c1, nx, ny, zs, base) && CellsPainted(m0, m1, nx, ny, zs, base)
    ensures Mirrors(c1, m1)
  {
    forall i | 0 <= i < CacheSize
      ensures c1[i] == CellOf(m1, i % 128, i / 128)
    {
      var x, y := i % 128, i / 128;
      DecomposeIndex(i, x, y);
      var j := i - nx - 128 * ny;
      if nx <= x < nx + zs && ny <= y < ny + zs {
        DecomposeIndex(j, x - nx, y - ny);
      } else {
        if 0 <= j && j % 128 < zs && j / 128 < zs {
          DecomposeIndex(j, j % 128, j / 128);
          DecomposeIndex(i, nx + j % 128, ny + j / 128);
          assert false;
        }
      }
    }
  }

  /**
   * A block painted at column 128 is stored in the cache at column 0 of the
   * next row while the map records it at column 128, so the two disagree.
   */
  lemma PaintPastLastColumnBreaksMirror(c1: seq<int>, m1: map<(int, int), int>)
    requires CachePainted(seq(CacheSize, i => 0), c1, 128, 0, 1, 5)
    requires CellsPainted(map[], m1, 128, 0, 1, 5)
    ensures Mirrors(seq(CacheSize, i => 0), map[])
    ensures !Mirrors(c1, m1)
  {
    assert Covered(128, 128, 0, 1);
    assert c1[128] == 5;
    assert CellOf(m1, 0, 1) == 0;
  }

  class MapEditor {
    const state: State
    const coord: seq<int>
    var offsetX: int
    var offsetY: int
    const availableZooms: seq<real>
    var idxZoom: nat
    var zoom: real
    const cache: array<int>
    var selectField: seq<int>
    var sizeSprite: int
    var currentSprite: seq<int>

    /**
     * The zoom, cell size and pan limits follow the zoom index, and the
     * offsets stay within the largest pan limits.
     */
    ghost predicate Valid()
      reads this`offsetX, this`offsetY, this`idxZoom, this`zoom, this`selectField, this`sizeSprite, this`currentSprite
    {
      coord == [0, 8, 240, 190] && availableZooms == AvailableZooms && cache.Length == CacheSize &&
      idxZoom < 3 && zoom == AvailableZooms[idxZoom] && sizeSprite == CellSizes[idxZoom] && IsCellSize(sizeSprite) &&
      0 <= offsetX <= 104 && 0 <= offsetY <= 16 &&
      |selectField| == 2 && |currentSprite| == 2
    }

    /** `MapEditor::new`: no offset, zoom 1, an empty cache. */
    constructor (state: State)
      ensures Valid() && this.state == state && fresh(cache)
      ensures offsetX == 0 && offsetY == 0 && idxZoom == 0 && zoom == 1.0 && sizeSprite == 8
      ensures selectField == [0, 8] && currentSprite == [0, 0]
      ensures forall i :: 0 <= i < CacheSize ==> cache[i] == 0
    {
      this.state := state;
      coord := [0, 8, 240, 190];
      offsetX, offsetY := 0, 0;
      availableZooms := [1.0, 0.5, 0.25];
      idxZoom, zoom := 0, 1.0;
      cache := new int[128 * 32](i => 0);
      selectField := [0, 8];
      sizeSprite := 8;
      currentSprite := [0, 0];
    }

    /** `MapEditor::init`: reload the whole cache from the console's map, row by row. */
    method Init(screen: Screen)
      requires Valid()
      modifies cache
      ensures Mirrors(cache[..], screen.cells)
    {
      var y := 0;
      while y < 32
        invariant 0 <= y <= 32
        invariant forall i :: 0 <= i < y * 128 ==> cache[i] == CellOf(screen.cells, i % 128, i / 128)
      {
        var x := 0;
        while x < 128
          invariant 0 <= x <= 128
          invariant forall i :: 0 <= i < y * 128 + x ==> cache[i] == CellOf(screen.cells, i % 128, i / 128)
        {
          DecomposeIndex(x + y * 128, x, y);
          cache[x + y * 128] := screen.MGet(x, y);
          x := x + 1;
        }
        y := y + 1;
      }
    }

    /**
     * `MapEditor::update`. Button presses pan the view (0 left, 1 right,
     * 2 up, 3 down, clamped) and cycle the zoom (4). A mouse in the view moves
     * the selection frame to the cell under it; while the level mouse state is
     * 1 a zoom_sprite x zoom_sprite block of consecutive sprites starting at
     * the current sprite is painted into both the cache and the map. `ok` is
     * false exactly when a block cell falls past the end of the cache, where
     * the editor stops with an index-out-of-bounds panic.
     */
    method Update(players: Players, screen: Screen) returns (ok: bool)
      requires Valid() && players.Valid() && state.Valid()
      modifies this`offsetX, this`offsetY, this`idxZoom, this`zoom, this`sizeSprite
      modifies this`selectField, this`currentSprite, cache, screen`cells
      ensures Valid()
      ensures offsetX == Pan(old(offsetX), players.Btnp(0, 0), players.Btnp(0, 1), PanLimitsX[old(idxZoom)])
      ensures offsetY == Pan(old(offsetY), players.Btnp(0, 2), players.Btnp(0, 3), PanLimitsY[old(idxZoom)])
      ensures idxZoom == if players.Btnp(0, 4) then (old(idxZoom) + 1) % 3 else old(idxZoom)
      ensures var mx, my := state.mouseX as int, state.mouseY as int;
        ok <==> !(InView(mx, my) && state.mouseState == 1) ||
                BlockFits(ViewCell(mx, offsetX, sizeSprite, 0), ViewCell(my, offsetY, sizeSprite, 8), state.zoomSprite)
      ensures var mx, my := state.mouseX as int, state.mouseY as int;
        ok && InView(mx, my) ==>
          selectField == [SelectCorner(mx, sizeSprite), SelectCorner(my, sizeSprite)] &&
          currentSprite == [ViewCell(mx, offsetX, sizeSprite, 0), ViewCell(my, offsetY, sizeSprite, 8)]
      ensures var mx, my := state.mouseX as int, state.mouseY as int;
        ok && !InView(mx, my) ==> selectField == old(selectField) && currentSprite == old(currentSprite)
      ensures var mx, my := state.mouseX as int, state.mouseY as int;
        ok && InView(mx, my) && state.mouseState == 1 ==>
          CachePainted(old(cache[..]), cache[..], currentSprite[0], currentSprite[1], state.zoomSprite, state.currentSprite) &&
          CellsPainted(old(screen.cells), screen.cells, currentSprite[0], currentSprite[1], state.zoomSprite, state.currentSprite)
      ensures var mx, my := state.mouseX as int, state.mouseY as int;
        !(InView(mx, my) && state.mouseState == 1) ==> cache[..] == old(cache[..]) && screen.cells == old(screen.cells)
    {
      Navigate(players);
      ok := PointAt(screen);
    }

    /**
     * The mouse handling of `MapEditor::update`: move the selection frame to
     * the cell under a mouse in the view and, while the level mouse state is
     * 1, paint the block there.
     */
    method PointAt(screen: Screen) returns (ok: bool)
      requires Valid() && state.Valid()
      modifies this`selectField, this`currentSprite, cache, screen`cells
      ensures Valid()
      ensures var mx, my := state.mouseX as int, state.mouseY as int;
        ok <==> !(InView(mx, my) && state.mouseState == 1) ||
                BlockFits(ViewCell(mx, offsetX, sizeSprite, 0), ViewCell(my, offsetY, sizeSprite, 8), state.zoomSprite)
      ensures var mx, my := state.mouseX as int, state.mouseY as int;
        ok && InView(mx, my) ==>
          selectField == [SelectCorner(mx, sizeSprite), SelectCorner(my, sizeSprite)] &&
          currentSprite == [ViewCell(mx, offsetX, sizeSprite, 0), ViewCell(my, offsetY, sizeSprite, 8)]
      ensures var mx, my := state.mouseX as int, state.mouseY as int;
        ok && !InView(mx, my) ==> selectField == old(selectField) && currentSprite == old(currentSprite)
      ensures var mx, my := state.mouseX as int, state.mouseY as int;
        ok && InView(mx, my) && state.mouseState == 1 ==>
          CachePainted(old(cache[..]), cache[..], currentSprite[0], currentSprite[1], state.zoomSprite, state.currentSprite) &&
          CellsPainted(old(screen.cells), screen.cells, currentSprite[0], currentSprite[1], state.zoomSprite, state.currentSprite)
      ensures var mx, my := state.mouseX as int, state.mouseY as int;
        !(InView(mx, my) && state.mouseState == 1) ==> cache[..] == old(cache[..]) && screen.cells == old(screen.cells)
    {
      ok := true;
      var mouseX := state.mouseX as int;
      var mouseY := state.mouseY as int;

      if PointInRect(mouseX, mouseY, coord[0], coord[1], coord[2], coord[3]) {
        var mouseState := state.mouseState;

        selectField := selectField[0 := SelectCorner(mouseX, sizeSprite)];
        selectField := selectField[1 := SelectCorner(mouseY, sizeSprite)];

        var newX := CellUnder(selectField[0], offsetX, sizeSprite, 0);
        var newY := CellUnder(selectField[1], offsetY, sizeSprite, coord[1]);
        if mouseState == 1 {
          assert Valid() && state.Valid();
          ok := PaintBlock(screen, newX, newY);
          if !ok {
            return;
          }
        }
        currentSprite := currentSprite[0 := newX];
        currentSprite := currentSprite[1 := newY];
      }
    }

    /** The key handling of `MapEditor::update`: pan with buttons 0 to 3, then cycle the zoom with button 4. */
    method Navigate(players: Players)
      requires Valid() && players.Valid()
      modifies this`offsetX, this`offsetY, this`idxZoom, this`zoom, this`sizeSprite
      ensures Valid()
      ensures offsetX == Pan(old(offsetX), players.Btnp(0, 0), players.Btnp(0, 1), PanLimitsX[old(idxZoom)])
      ensures offsetY == Pan(old(offsetY), players.Btnp(0, 2), players.Btnp(0, 3), PanLimitsY[old(idxZoom)])
      ensures idxZoom == if players.Btnp(0, 4) then (old(idxZoom) + 1) % 3 else old(idxZoom)
    {
      var left, right, up, down := players.Btnp(0, 0), players.Btnp(0, 1), players.Btnp(0, 2), players.Btnp(0, 3);
      var zoomKey := players.Btnp(0, 4);
      PanHorizontal(left, right);
      PanVertical(up, down);
      if zoomKey {
        CycleZoom();
      }
    }

    /** Left and right of `MapEditor::update`: step the column offset by 8 within [0, limit]. */
    method PanHorizontal(left: bool, right: bool)
      requires Valid()
      modifies this`offsetX
      ensures Valid()
      ensures offsetX == Pan(old(offsetX), left, right, PanLimitsX[idxZoom])
    {
      if left {
        offsetX := offsetX - 8;
        offsetX := Max(0, offsetX);
      }
      if right {
        offsetX := offsetX + 8;
        offsetX := Min(PanLimitsX[idxZoom], offsetX);
      }
    }

    /** Up and down of `MapEditor::update`: step the row offset by 8 within [0, limit]. */
    method PanVertical(up: bool, down: bool)
      requires Valid()
      modifies this`offsetY
      ensures Valid()
      ensures offsetY == Pan(old(offsetY), up, down, PanLimitsY[idxZoom])
    {
      if up {
        offsetY := offsetY - 8;
        offsetY := Max(0, offsetY);
      }
      if down {
        offsetY := offsetY + 8;
        offsetY := Min(PanLimitsY[idxZoom], offsetY);
      }
    }

    /** The zoom key of `MapEditor::update`: next zoom level, and the cell size that goes with it. */
    method CycleZoom()
      requires Valid()
      modifies this`idxZoom, this`zoom, this`sizeSprite
      ensures Valid()
      ensures idxZoom == (old(idxZoom) + 1) % 3
    {
      idxZoom := (idxZoom + 1) % |availableZooms|;
      zoom := availableZooms[idxZoom];
      sizeSprite := CellSizes[idxZoom];
    }

    /**
     * The painting loop of `MapEditor::update`: columns outer, rows inner,
     * cache first, then the map; stops (`ok` false) at the first cell whose
     * cache index is past the end.
     */
    method PaintBlock(screen: Screen, nx: int, ny: int) returns (ok: bool)
      requires Valid() && state.Valid() && 0 <= nx && 0 <= ny
      modifies cache, screen`cells
      ensures ok <==> BlockFits(nx, ny, state.zoomSprite)
      ensures ok ==> CachePainted(old(cache[..]), cache[..], nx, ny, state.zoomSprite, state.currentSprite)
      ensures ok ==> CellsPainted(old(screen.cells), screen.cells, nx, ny, state.zoomSprite, state.currentSprite)
    {
      var zoomSprite := state.zoomSprite;
      var base := state.currentSprite;
      ghost var c0 := cache[..];
      ghost var m0 := screen.cells;
      var x := 0;
      while x < zoomSprite
        invariant 0 <= x <= zoomSprite
        invariant x == 0 || (nx + x - 1) + (ny + zoomSprite - 1) * 128 < CacheSize
        invariant PaintedUpTo(c0, cache[..], nx, ny, zoomSprite, base, x, 0)
        invariant CellsPaintedUpTo(m0, screen.cells, nx, ny, zoomSprite, base, x, 0)
      {
        ok := PaintColumn(screen, nx, ny, x, c0, m0);
        if !ok {
          return;
        }
        x := x + 1;
      }
      CacheBlockDone(c0, cache[..], nx, ny, zoomSprite, base);
      CellsBlockDone(m0, screen.cells, nx, ny, zoomSprite, base);
      ok := true;
    }

    /**
     * One pass of the inner loop of the painting: the rows of block column x,
     * top to bottom; stops (`ok` false) at the first row whose cache index is
     * past the end.
     */
    method PaintColumn(screen: Screen, nx: int, ny: int, x: int, ghost c0: seq<int>, ghost m0: map<(int, int), int>)
      returns (ok: bool)
      requires Valid() && state.Valid() && 0 <= nx && 0 <= ny && 0 <= x < state.zoomSprite
      requires PaintedUpTo(c0, cache[..], nx, ny, state.zoomSprite, state.currentSprite, x, 0)
      requires CellsPaintedUpTo(m0, screen.cells, nx, ny, state.zoomSprite, state.currentSprite, x, 0)
      modifies cache, screen`cells
      ensures ok <==> (nx + x) + (ny + state.zoomSprite - 1) * 128 < CacheSize
      ensures ok ==> PaintedUpTo(c0, cache[..], nx, ny, state.zoomSprite, state.currentSprite, x + 1, 0)
      ensures ok ==> CellsPaintedUpTo(m0, screen.cells, nx, ny, state.zoomSprite, state.currentSprite, x + 1, 0)
    {
      var zoomSprite := state.zoomSprite;
      var base := state.currentSprite;
      var y := 0;
      while y < zoomSprite
        invariant 0 <= y <= zoomSprite
        invariant y == 0 || (nx + x) + (ny + y - 1) * 128 < CacheSize
        invariant PaintedUpTo(c0, cache[..], nx, ny, zoomSprite, base, x, y)
        invariant CellsPaintedUpTo(m0, screen.cells, nx, ny, zoomSprite, base, x, y)
      {
        var currentSprite := base + x + y * 16;
        var idx := (nx + x) + (ny + y) * 128;
        if idx >= CacheSize {
          ok := false;
          return;
        }
        assert idx == nx + x + 128 * (ny + y);
        ghost var before := cache[..];
        PaintStep(c0, before, nx, ny, zoomSprite, base, x, y);
        CellsPaintStep(m0, screen.cells, nx, ny, zoomSprite, base, x, y);
        cache[idx] := currentSprite;
        assert cache[..] == before[idx := currentSprite];
        screen.MSet(nx + x, ny + y, currentSprite);
        y := y + 1;
      }
      CacheColumnDone(c0, cache[..], nx, ny, zoomSprite, base, x);
      CellsColumnDone(m0, screen.cells, nx, ny, zoomSprite, base, x);
      ok := true;
    }
  }
}
