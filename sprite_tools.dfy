/**
 * The sprite side of the editor: the palette picker and zoomed canvas, the
 * flag panel, the sprite zoom, and the bank buttons with the thumbnail grid
 * that choose the current sprite.
 */
module SpriteTools {
  import opened Ints
  import opened Config
  import opened Gfx
  import opened EditorCore

  // ---------------------------------------------------------------------------
  // Palette picker and zoomed canvas

  /** Left edge, top edge and side of the 4 x 4 swatch grid. */
  const SwatchLeft := 192
  const SwatchTop := 16
  const SwatchGridSide := 4 * 8

  /**
   * The sprite pixel under canvas offset `d` (0 <= d < 128) when the canvas
   * shows an `8 * zoom` square: the floor of `d * zoom / 16`.
   */
  function CanvasOffset(d: int, zoom: nat): (r: int)
    requires 0 <= d
    ensures 0 <= r && r * 16 <= d * zoom < (r + 1) * 16
    ensures d < 128 && zoom > 0 ==> r < 8 * zoom
  {
    (d * zoom) / 16
  }

  /**
   * The sheet pixel a canvas click writes, if the click is a painting one,
   * while the canvas shows the sprite at `zoom`.
   */
  function CanvasTargetAt(st: State, zoom: nat): (t: Option<(int, int)>)
    reads st`mouseStatep, st`mouseX, st`mouseY, st`xZoomSprite, st`yZoomSprite
    ensures t.Some? <==> (st.mouseStatep == 1 &&
                          PointInRect(st.mouseX as int, st.mouseY as int, st.idxXZoomSprite, st.idxYZoomSprite,
                                      st.idxXZoomSprite + 128, st.idxYZoomSprite + 128))
    ensures t.Some? && zoom > 0 ==>
      st.xZoomSprite <= t.value.0 < st.xZoomSprite + 8 * zoom &&
      st.yZoomSprite <= t.value.1 < st.yZoomSprite + 8 * zoom
  {
    if st.mouseStatep == 1 &&
       PointInRect(st.mouseX as int, st.mouseY as int, st.idxXZoomSprite, st.idxYZoomSprite,
                   st.idxXZoomSprite + 128, st.idxYZoomSprite + 128)
    then
      Some((st.xZoomSprite + CanvasOffset(st.mouseX as int - st.idxXZoomSprite, zoom),
            st.yZoomSprite + CanvasOffset(st.mouseY as int - st.idxYZoomSprite, zoom)))
    else None
  }

  /** The sheet pixel a canvas click writes at the current sprite zoom. */
  function CanvasTarget(st: State): (t: Option<(int, int)>)
    reads st
    ensures t.Some? <==> (st.mouseStatep == 1 &&
                          PointInRect(st.mouseX as int, st.mouseY as int, st.idxXZoomSprite, st.idxYZoomSprite,
                                      st.idxXZoomSprite + 128, st.idxYZoomSprite + 128))
    ensures t.Some? && st.zoomSprite > 0 ==>
      st.xZoomSprite <= t.value.0 < st.xZoomSprite + 8 * st.zoomSprite &&
      st.yZoomSprite <= t.value.1 < st.yZoomSprite + 8 * st.zoomSprite
  {
    CanvasTargetAt(st, st.zoomSprite)
  }

  /** Column and row of the swatch under a point of the swatch grid. */
  function SwatchAt(mx: int, my: int): (sel: (int, int))
    requires PointInRect(mx, my, SwatchLeft, SwatchTop, SwatchLeft + SwatchGridSide, SwatchTop + SwatchGridSide)
    ensures 0 <= sel.0 < 4 && 0 <= sel.1 < 4
    ensures PointInRect(mx, my, SwatchLeft + 8 * sel.0, SwatchTop + 8 * sel.1,
                        SwatchLeft + 8 * sel.0 + 8, SwatchTop + 8 * sel.1 + 8)
  {
    ((mx - SwatchLeft) / 8, (my - SwatchTop) / 8)
  }

  /** The swatch a selecting click picks, if the click is a selecting one. */
  function SwatchPick(st: State): (sel: Option<(int, int)>)
    reads st`mouseStatep, st`mouseX, st`mouseY
    ensures sel.Some? <==> (st.mouseStatep == 1 &&
                            PointInRect(st.mouseX as int, st.mouseY as int, SwatchLeft, SwatchTop,
                                        SwatchLeft + SwatchGridSide, SwatchTop + SwatchGridSide))
    ensures sel.Some? ==> 0 <= sel.value.0 < 4 && 0 <= sel.value.1 < 4
  {
    if st.mouseStatep == 1 &&
       PointInRect(st.mouseX as int, st.mouseY as int, SwatchLeft, SwatchTop,
                   SwatchLeft + SwatchGridSide, SwatchTop + SwatchGridSide)
    then Some(SwatchAt(st.mouseX as int, st.mouseY as int))
    else None
  }

  /** Where the palette drawing puts the 8 x 8 square of colour `c`: four per row. */
  function SwatchOrigin(c: nat): (int, int) {
    (SwatchLeft + 8 * (c % 4), SwatchTop + 8 * (c / 4))
  }

  /**
   * Picking inverts the drawn layout: a click anywhere in the square drawn for
   * colour `c` selects colour `c`, at column `c % 4` and row `c / 4`.
   */
  lemma SwatchPickInvertsLayout(c: nat, dx: int, dy: int)
    requires c < 16 && 0 <= dx < 8 && 0 <= dy < 8
    ensures var o := SwatchOrigin(c);
      PointInRect(o.0 + dx, o.1 + dy, SwatchLeft, SwatchTop, SwatchLeft + SwatchGridSide, SwatchTop + SwatchGridSide) &&
      SwatchAt(o.0 + dx, o.1 + dy) == (c % 4, c / 4) &&
      SwatchAt(o.0 + dx, o.1 + dy).0 + 4 * SwatchAt(o.0 + dx, o.1 + dy).1 == c
  {
    var o := SwatchOrigin(c);
    assert (o.0 + dx - SwatchLeft) / 8 == c % 4 by {
      assert o.0 + dx - SwatchLeft == 8 * (c % 4) + dx;
    }
    assert (o.1 + dy - SwatchTop) / 8 == c / 4 by {
      assert o.1 + dy - SwatchTop == 8 * (c / 4) + dy;
    }
  }

  /** The zoomed canvas and the swatch grid never overlap, so one click does at most one of the two. */
  lemma CanvasAndSwatchesAreDisjoint(mx: int, my: int)
    ensures !(PointInRect(mx, my, 10, 10, 10 + 128, 10 + 128) &&
              PointInRect(mx, my, SwatchLeft, SwatchTop, SwatchLeft + SwatchGridSide, SwatchTop + SwatchGridSide))
  {
  }

  class PalettePicker {
    const state: State
    const idxX: int
    const idxY: int
    var currentColor: nat
    var currentSelectionX: int
    var currentSelectionY: int

    /** The colour is the swatch under the selection, which lies in the 4 x 4 grid. */
    ghost predicate Valid()
      reads this`currentColor, this`currentSelectionX, this`currentSelectionY
    {
      idxX == SwatchLeft && idxY == SwatchTop &&
      0 <= currentSelectionX < 4 && 0 <= currentSelectionY < 4 &&
      currentColor == currentSelectionX + 4 * currentSelectionY
    }

    /** `PalettePicker::new`: colour 0 selected. */
    constructor (state: State)
      ensures Valid() && this.state == state
      ensures currentColor == 0 && currentSelectionX == 0 && currentSelectionY == 0
    {
      this.state := state;
      idxX, idxY := 192, 16;
      currentColor, currentSelectionX, currentSelectionY := 0, 0, 0;
    }

    /**
     * `PalettePicker::update`: while the quick mouse state is 1, a point in
     * the canvas writes one pixel of the current colour into the sprite shown
     * there, and a point in the swatch grid selects that swatch's colour.
     */
    method Update(screen: Screen)
      requires Valid()
      modifies this`currentColor, this`currentSelectionX, this`currentSelectionY, screen`pixels
      ensures Valid()
      ensures var t := CanvasTarget(state);
        screen.pixels == if t.Some? then old(screen.pixels)[t.value := old(currentColor)] else old(screen.pixels)
      ensures var sel := SwatchPick(state);
        if sel.Some? then
          currentSelectionX == sel.value.0 && currentSelectionY == sel.value.1 && currentColor < 16
        else
          currentColor == old(currentColor) &&
          currentSelectionX == old(currentSelectionX) && currentSelectionY == old(currentSelectionY)
    {
      if state.mouseStatep == 1 {
        PaintCanvas(screen);
        PickSwatch();
      }
    }

    /** The canvas branch of `PalettePicker::update`: one pixel of the current colour at the point's sheet pixel. */
    method PaintCanvas(screen: Screen)
      requires Valid() && state.mouseStatep == 1
      modifies screen`pixels
      ensures var t := CanvasTarget(state);
        screen.pixels == if t.Some? then old(screen.pixels)[t.value := currentColor] else old(screen.pixels)
    {
      var mouseX := state.mouseX as int;
      var mouseY := state.mouseY as int;
      var idxXZoomSprite := state.idxXZoomSprite;
      var idxYZoomSprite := state.idxYZoomSprite;
      var zoomSprite := state.zoomSprite;

      if PointInRect(mouseX, mouseY, idxXZoomSprite, idxYZoomSprite, idxXZoomSprite + 128, idxYZoomSprite + 128) {
        var x := CanvasOffset(mouseX - idxXZoomSprite, zoomSprite);
        var y := CanvasOffset(mouseY - idxYZoomSprite, zoomSprite);
        screen.SSet(state.xZoomSprite + x, state.yZoomSprite + y, currentColor);
      }
    }

    /** The swatch branch of `PalettePicker::update`: the swatch under the point becomes the selection and the colour. */
    method PickSwatch()
      requires Valid() && state.mouseStatep == 1
      modifies this`currentColor, this`currentSelectionX, this`currentSelectionY
      ensures Valid()
      ensures var sel := SwatchPick(state);
        if sel.Some? then
          currentSelectionX == sel.value.0 && currentSelectionY == sel.value.1 && currentColor < 16
        else
          currentColor == old(currentColor) &&
          currentSelectionX == old(currentSelectionX) && currentSelectionY == old(currentSelectionY)
    {
      var mouseX := state.mouseX as int;
      var mouseY := state.mouseY as int;
      if PointInRect(mouseX, mouseY, idxX, idxY, idxX + 4 * 8, idxY + 4 * 8) {
        var x := (mouseX - idxX) / 8;
        var y := (mouseY - idxY) / 8;
        currentColor := x + y * 4;
        currentSelectionX := x;
        currentSelectionY := y;
      }
    }
  }

  // ---------------------------------------------------------------------------
  // Flag panel

  /** The eight flag bits, in panel order. */
  const FlagValues: seq<nat> := [1, 2, 4, 8, 16, 32, 64, 128]

  /** Panel colour of a flag: 11 when set, 8 when clear. */
  function FlagColour(set_: bool): (c: nat)
    ensures c == 11 <==> set_
    ensures c == 8 <==> !set_
  {
    if set_ then 11 else 8
  }

  /** The flag values are distinct, so each toggle touches its own bit only. */
  lemma FlagValuesIncrease(j: int, k: int)
    requires 0 <= j < k < 8
    ensures FlagValues[j] < FlagValues[k]
  {
  }

  /** The flag box under (mx, my): box k is [128 + 6k, 130 + 6k) x [193, 195). */
  function FlagAt(mx: int, my: int): (hit: Option<nat>)
    ensures hit.Some? ==> hit.value < 8
  {
    if 193 <= my < 195 && 128 <= mx && (mx - 128) % 6 < 2 && (mx - 128) / 6 < 8
    then Some((mx - 128) / 6)
    else None
  }

  /**
   * `FlagAt` names box k exactly when the point lies in box k; since it
   * returns one answer, no point lies in two boxes.
   */
  lemma FlagAtMatchesBoxes(mx: int, my: int, k: int)
    requires 0 <= k < 8
    ensures FlagAt(mx, my) == Some(k) <==> PointInRect(mx, my, 128 + 6 * k, 193, 130 + 6 * k, 195)
  {
    if PointInRect(mx, my, 128 + 6 * k, 193, 130 + 6 * k, 195) {
      assert mx - 128 == 6 * k + (mx - 128 - 6 * k);
      assert (mx - 128) / 6 == k && (mx - 128) % 6 == mx - 128 - 6 * k;
    }
  }

  /** The sprite flags after flipping the bit of box `hit`, if any, of sprite `sprite`. */
  function ToggledFlags(flags: map<(int, int), bool>, sprite: int, hit: Option<nat>): (r: map<(int, int), bool>)
    requires hit.Some? ==> hit.value < 8
    ensures hit.None? ==> r == flags
    ensures hit.Some? ==> FlagOf(r, sprite, FlagValues[hit.value]) == !FlagOf(flags, sprite, FlagValues[hit.value])
    ensures forall s, f :: (hit.None? || s != sprite || f != FlagValues[hit.value]) ==> FlagOf(r, s, f) == FlagOf(flags, s, f)
  {
    match hit
    case None => flags
    case Some(k) => flags[(sprite, FlagValues[k]) := !FlagOf(flags, sprite, FlagValues[k])]
  }

  /** The flag box a level click hits, if any. */
  function FlagHit(st: State): (hit: Option<nat>)
    reads st`mouseState, st`mouseX, st`mouseY
    ensures hit.Some? ==> hit.value < 8 && st.mouseState == 1
  {
    if st.mouseState == 1 then FlagAt(st.mouseX as int, st.mouseY as int) else None
  }

  class Flags {
    const state: State
    const values: seq<nat>
    /** Panel colour per flag value. */
    var flags: map<nat, nat>

    ghost predicate Valid()
      reads this`flags
    {
      values == FlagValues && flags.Keys == set k | 0 <= k < 8 :: FlagValues[k]
    }

    /** `Flags::new`: every flag value mapped to colour 0. */
    constructor (state: State)
      ensures Valid() && this.state == state
      ensures forall k :: 0 <= k < 8 ==> flags[FlagValues[k]] == 0
    {
      this.state := state;
      values := [1, 2, 4, 8, 16, 32, 64, 128];
      var initial := map[1 := 0, 2 := 0, 4 := 0, 8 := 0, 16 := 0, 32 := 0, 64 := 0, 128 := 0];
      assert initial.Keys == set k | 0 <= k < 8 :: FlagValues[k] by {
        assert forall v :: v in initial.Keys ==>
          (v == FlagValues[0] || v == FlagValues[1] || v == FlagValues[2] || v == FlagValues[3] ||
           v == FlagValues[4] || v == FlagValues[5] || v == FlagValues[6] || v == FlagValues[7]);
      }
      flags := initial;
    }

    /**
     * `Flags::update`: each flag's panel colour shows the bit of the current
     * sprite as it was before this update, and a level click on box k flips
     * bit k of the current sprite; no other bit changes.
     */
    method Update(screen: Screen)
      requires Valid()
      modifies this`flags, screen`spriteFlags
      ensures Valid()
      ensures forall k :: 0 <= k < 8 ==>
        flags[FlagValues[k]] == FlagColour(FlagOf(old(screen.spriteFlags), state.currentSprite, FlagValues[k]))
      ensures screen.spriteFlags == ToggledFlags(old(screen.spriteFlags), state.currentSprite, FlagHit(state))
    {
      var idx := 0;
      var idxSprite := state.currentSprite;
      ghost var before := screen.spriteFlags;
      ghost var hit := FlagHit(state);
      var i := 0;
      while i < 8
        invariant 0 <= i <= 8 && idx == 6 * i
        invariant flags.Keys == set k | 0 <= k < 8 :: FlagValues[k]
        invariant forall k :: 0 <= k < i ==> flags[FlagValues[k]] == FlagColour(FlagOf(before, idxSprite, FlagValues[k]))
        invariant screen.spriteFlags == if hit.Some? && hit.value < i then ToggledFlags(before, idxSprite, hit) else before
      {
        var value := values[i];
        var flag := screen.FGet(idxSprite, value);
        assert flag == FlagOf(before, idxSprite, value) by {
          if hit.Some? && hit.value < i {
            FlagValuesIncrease(hit.value, i);
          }
        }
        var color := 8;
        if flag {
          color := 11;
        }
        forall k | 0 <= k < i
          ensures FlagValues[k] != value
        {
          FlagValuesIncrease(k, i);
        }
        flags := flags[value := color];

        if state.mouseState == 1 {
          var mouseX := state.mouseX as int;
          var mouseY := state.mouseY as int;
          FlagAtMatchesBoxes(mouseX, mouseY, i);
          if PointInRect(mouseX, mouseY, 128 + idx, 193, 130 + idx, 195) {
            screen.FSet(idxSprite, value, !flag);
          }
        }
        idx := idx + 6;
        i := i + 1;
      }
    }
  }

  // ---------------------------------------------------------------------------
  // Sprite editor: the palette picker plus the sprite zoom

  class SpriteEditor {
    const state: State
    const pp: PalettePicker

    ghost predicate Valid()
      reads state`idxZoomSprite, state`zoomSprite, pp`currentColor, pp`currentSelectionX, pp`currentSelectionY
    {
      pp.state == state && pp.Valid() && state.Valid()
    }

    constructor (state: State)
      requires state.Valid()
      ensures Valid() && this.state == state && fresh(pp)
    {
      this.state := state;
      pp := new PalettePicker(state);
    }

    /**
     * `SpriteEditor::update`: the palette picker acts on the mouse, then a
     * press of button 4 advances the sprite zoom to the next of 1, 2, 4.
     */
    method Update(players: Players, screen: Screen)
      requires Valid() && players.Valid()
      modifies pp`currentColor, pp`currentSelectionX, pp`currentSelectionY, screen`pixels
      modifies state`idxZoomSprite, state`zoomSprite
      ensures Valid()
      ensures var t := old(CanvasTarget(state));
        screen.pixels == if t.Some? then old(screen.pixels)[t.value := old(pp.currentColor)] else old(screen.pixels)
      ensures var sel := SwatchPick(state);
        if sel.Some? then pp.currentSelectionX == sel.value.0 && pp.currentSelectionY == sel.value.1
        else pp.currentColor == old(pp.currentColor)
      ensures state.idxZoomSprite == if players.Btnp(0, 4) then CycleAfter(old(state.idxZoomSprite), 1)
                                     else old(state.idxZoomSprite)
      ensures state.zoomSprite == [1, 2, 4][state.idxZoomSprite]
    {
      pp.Update(screen);

      if players.Btnp(0, 4) {
        var idxZoomSprite := state.idxZoomSprite;
        var spriteAvailableZooms := state.spriteAvailableZooms;
        var newIdxZoomSprite := (idxZoomSprite + 1) % |spriteAvailableZooms|;
        state.idxZoomSprite := newIdxZoomSprite;
        state.zoomSprite := spriteAvailableZooms[newIdxZoomSprite];
      }
    }
  }

  /**
   * Pressing the zoom button n times from index i shows zoom [1, 2, 4][(i + n) % 3]:
   * the zooms come round in the order 1, 2, 4, 1, ...
   */
  lemma SpriteZoomCycles(i: int, n: nat)
    requires 0 <= i < 3
    ensures 0 <= CycleAfter(i, n) < 3 && [1, 2, 4][CycleAfter(i, n)] == [1, 2, 4][(i + n) % 3]
    ensures CycleAfter(i, 3) == i
  {
    CycleAfterIsModular(i, n);
    CycleAfterIsModular(i, 3);
  }

  // ---------------------------------------------------------------------------
  // Sprite map: bank buttons and thumbnail grid

  /** Left and right (inclusive) edges of the four bank buttons; all span rows 191..199. */
  const BankLeft: seq<int> := [208, 213, 218, 223]
  const BankRight: seq<int> := [212, 217, 222, 228]

  /** The bar the bank buttons sit in, checked half-open before any button is. */
  predicate InBankBar(mx: int, my: int) {
    PointInRect(mx, my, 208, 191, 228, 199)
  }

  /** The bank whose button covers column mx of the bar. */
  function BankAt(mx: int): (k: nat)
    requires 208 <= mx < 228
    ensures k < 4 && BankLeft[k] <= mx <= BankRight[k]
  {
    if mx <= 212 then 0 else if mx <= 217 then 1 else if mx <= 222 then 2 else 3
  }

  /**
   * Inside the bar exactly one bank button is hit: button k lights up if and
   * only if k is the bank under the mouse.
   */
  lemma BankButtonsPartitionBar(mx: int, my: int, k: int)
    requires InBankBar(mx, my) && 0 <= k < 4
    ensures PointInClosedRect(mx, my, BankLeft[k], 191, BankRight[k], 199) <==> k == BankAt(mx)
  {
  }

  /** The sprite a level click on the thumbnail grid selects: column, row and bank. */
  function ThumbnailSprite(mx: int, my: int, bank: nat): (s: nat)
    requires 200 <= my
    ensures s == Max(0, mx / 8) + 16 * ((my - 200) / 8) + 64 * bank
  {
    var y := (my - 200) / 8;
    var x := if mx < 0 then 0 else mx / 8;
    x + y * 16 + 64 * bank
  }

  /**
   * Thumbnail picking inverts the grid drawing: the 8 x 8 square at column
   * n % 16 and row n / 16 of the grid shows sprite 64 * bank + n, and a click
   * anywhere in it selects that sprite.
   */
  lemma ThumbnailPickInvertsLayout(bank: nat, n: nat, dx: int, dy: int)
    requires n < 64 && 0 <= dx < 8 && 0 <= dy < 8
    ensures ThumbnailSprite(8 * (n % 16) + dx, 200 + 8 * (n / 16) + dy, bank) == 64 * bank + n
  {
    assert (8 * (n % 16) + dx) / 8 == n % 16;
    assert (8 * (n / 16) + dy) / 8 == n / 16;
  }

  /** Atlas origin of sprite s in a sheet 16 sprites wide. */
  function AtlasOrigin(s: nat): (o: (nat, nat))
    ensures o.0 % 8 == 0 && o.1 % 8 == 0 && o.0 < 128
    ensures s == o.0 / 8 + 16 * (o.1 / 8)
  {
    ((s % 16) * 8, (s / 16) * 8)
  }

  /** Bank 2, cell (3, 1) of the grid is sprite 147, whose atlas origin is (24, 72). */
  lemma ThumbnailExample()
    ensures ThumbnailSprite(24, 208, 2) == 147 && AtlasOrigin(147) == (24, 72)
  {
  }

  class SpritesMap {
    const state: State
    const buttons: seq<int>
    const buttonsMap: seq<Button>
    const flags: Flags

    /**
     * The four bank buttons are laid out left to right, and the lit one is
     * always the selected bank.
     */
    ghost predicate Valid()
      reads state`idxMap, buttonsMap, flags`flags
    {
      buttons == [208, 191, 228, 199] && state.idxSpritesBatch == 200 &&
      |buttonsMap| == 4 && flags.state == state && flags.Valid() &&
      (forall j, k :: 0 <= j < k < 4 ==> buttonsMap[j] != buttonsMap[k]) &&
      (forall k :: 0 <= k < 4 ==>
        buttonsMap[k].x1 == BankLeft[k] && buttonsMap[k].x2 == BankRight[k] &&
        buttonsMap[k].y1 == 191 && buttonsMap[k].y2 == 199) &&
      state.idxMap < 4 &&
      (forall k :: 0 <= k < 4 ==> (buttonsMap[k].clicked <==> k == state.idxMap))
    }

    /** `SpritesMap::new`: four bank buttons, the first lit. */
    constructor (state: State)
      requires state.idxMap == 0 && state.idxSpritesBatch == 200
      ensures Valid() && this.state == state
      ensures fresh(flags) && forall k :: 0 <= k < 4 ==> fresh(buttonsMap[k])
    {
      this.state := state;
      var b0 := new Button(208, 191, 212, 199, 2, "1", true);
      var b1 := new Button(213, 191, 217, 199, 2, "2", false);
      var b2 := new Button(218, 191, 222, 199, 2, "3", false);
      var b3 := new Button(223, 191, 228, 199, 2, "4", false);
      buttons := [208, 191, 228, 199];
      buttonsMap := [b0, b1, b2, b3];
      flags := new Flags(state);
    }

    /**
     * `SpritesMap::update`. While the level mouse state is 1: in the bank bar,
     * every button is checked again and the bank under the mouse becomes the
     * selected bank, with its first sprite current; in the thumbnail rows
     * 200..231, the sprite under the mouse in the selected bank becomes
     * current and its atlas origin is shown in the canvas. Then the flag panel
     * updates for the (new) current sprite.
     */
    method Update(screen: Screen)
      requires Valid()
      modifies state`onCurrentSprite, state`idxMap, state`currentSprite, state`xZoomSprite, state`yZoomSprite
      modifies buttonsMap, flags`flags, screen`spriteFlags
      ensures Valid()
      ensures !state.onCurrentSprite
      ensures var mx, my := state.mouseX as int, state.mouseY as int;
        state.idxMap == if state.mouseState == 1 && InBankBar(mx, my) then BankAt(mx) else old(state.idxMap)
      ensures var mx, my := state.mouseX as int, state.mouseY as int;
        state.currentSprite == if state.mouseState == 1 && InBankBar(mx, my) then 64 * BankAt(mx)
                               else if state.mouseState == 1 && 200 <= my < 232 then ThumbnailSprite(mx, my, old(state.idxMap))
                               else old(state.currentSprite)
      ensures var mx, my := state.mouseX as int, state.mouseY as int;
        (state.xZoomSprite, state.yZoomSprite) == if state.mouseState == 1 && 200 <= my < 232 then AtlasOrigin(state.currentSprite)
                                                  else (old(state.xZoomSprite), old(state.yZoomSprite))
      ensures forall k :: 0 <= k < 8 ==>
        flags.flags[FlagValues[k]] == FlagColour(FlagOf(old(screen.spriteFlags), state.currentSprite, FlagValues[k]))
      ensures screen.spriteFlags == ToggledFlags(old(screen.spriteFlags), state.currentSprite, FlagHit(state))
    {
      state.onCurrentSprite := false;

      if state.mouseState == 1 {
        var mouseX := state.mouseX as int;
        var mouseY := state.mouseY as int;

        if PointInRect(mouseX, mouseY, buttons[0], buttons[1], buttons[2], buttons[3]) {
          SelectBank(mouseX, mouseY);
        }

        if mouseY >= state.idxSpritesBatch && mouseY < 232 {
          SelectThumbnail(mouseX, mouseY);
        }
      }

      flags.Update(screen);
    }

    /**
     * The button loop of `SpritesMap::update`: every bank button is checked again
     * against a point of the bar, and the one that lights up selects its bank
     * and the bank's first sprite.
     */
    method SelectBank(mouseX: int, mouseY: int)
      requires Valid() && InBankBar(mouseX, mouseY)
      modifies buttonsMap, state`idxMap, state`currentSprite
      ensures Valid()
      ensures state.idxMap == BankAt(mouseX) && state.currentSprite == 64 * BankAt(mouseX)
    {
      var btnIdx := 0;
      while btnIdx < 4
        invariant 0 <= btnIdx <= 4
        invariant forall k :: 0 <= k < btnIdx ==> (buttonsMap[k].clicked <==> k == BankAt(mouseX))
        invariant state.idxMap == if BankAt(mouseX) < btnIdx then BankAt(mouseX) else old(state.idxMap)
        invariant state.currentSprite == if BankAt(mouseX) < btnIdx then 64 * BankAt(mouseX) else old(state.currentSprite)
        invariant state.idxMap < 4
      {
        var button := buttonsMap[btnIdx];
        button.Update(mouseX, mouseY);
        BankButtonsPartitionBar(mouseX, mouseY, btnIdx);
        if button.clicked {
          state.idxMap := btnIdx;
          state.currentSprite := 64 * btnIdx;
        }
        btnIdx := btnIdx + 1;
      }
    }

    /**
     * The thumbnail branch of `SpritesMap::update`: the sprite under a point
     * of rows 200..231 in the selected bank becomes current, and the canvas
     * shows it from its atlas origin.
     */
    method SelectThumbnail(mouseX: int, mouseY: int)
      requires Valid() && 200 <= mouseY < 232
      modifies state`currentSprite, state`xZoomSprite, state`yZoomSprite
      ensures state.currentSprite == ThumbnailSprite(mouseX, mouseY, state.idxMap)
      ensures (state.xZoomSprite, state.yZoomSprite) == AtlasOrigin(state.currentSprite)
    {
      var idxSpritesBatch := state.idxSpritesBatch;
      var y := (mouseY - idxSpritesBatch) / 8;
      var x := if mouseX < 0 then 0 else mouseX / 8;
      var idxMap := state.idxMap;
      state.currentSprite := (x + y * 16) + 64 * idxMap;

      var currentSprite := state.currentSprite;
      state.xZoomSprite := (currentSprite % 16) * 8;
      state.yZoomSprite := (currentSprite / 16) * 8;
    }
  }
}
