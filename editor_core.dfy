/**
 * The shared pieces of the sprite/map editor: the rectangle tests, the
 * `State` record every component reads and writes, the bank `Button` and the
 * mode-switch `Widget`.
 */
module EditorCore {
  import opened Ints
  import opened Config

  /**
   * `point_in_rect`: inclusive lower corner, exclusive upper corner. An empty
   * box is never hit, and a hit lies in the closed box one pixel smaller.
   */
  function PointInRect(x: int, y: int, x1: int, y1: int, x2: int, y2: int): (r: bool)
    ensures r ==> x1 < x2 && y1 < y2
    ensures r ==> PointInClosedRect(x, y, x1, y1, x2 - 1, y2 - 1)
  {
    (x1 <= x && x < x2) && (y1 <= y && y < y2)
  }

  /** The test `Button::update` uses: both corners inclusive. */
  function PointInClosedRect(x: int, y: int, x1: int, y1: int, x2: int, y2: int): (r: bool)
    ensures r ==> x1 <= x2 && y1 <= y2
  {
    (x1 <= x && x <= x2) && (y1 <= y && y <= y2)
  }

  /** On integer coordinates a closed box is the half-open box one pixel wider and taller. */
  lemma ClosedIsHalfOpenWidened(x: int, y: int, x1: int, y1: int, x2: int, y2: int)
    ensures PointInClosedRect(x, y, x1, y1, x2, y2) <==> PointInRect(x, y, x1, y1, x2 + 1, y2 + 1)
  {
  }

  /**
   * Reading a signed coordinate as `u32` before a half-open test against a box
   * in the non-negative half of the range gives the same answer as the signed
   * test: a negative coordinate becomes at least 2^31 and misses the box.
   */
  lemma UnsignedTestMatchesSigned(mx: i32, my: i32, x1: int, y1: int, x2: int, y2: int)
    requires 0 <= x1 && 0 <= y1 && x2 <= 0x8000_0000 && y2 <= 0x8000_0000
    ensures PointInRect(AsU32(mx as int), AsU32(my as int), x1, y1, x2, y2)
        <==> PointInRect(mx as int, my as int, x1, y1, x2, y2)
  {
    if mx < 0 {
      assert AsU32(mx as int) >= 0x8000_0000;
    }
    if my < 0 {
      assert AsU32(my as int) >= 0x8000_0000;
    }
  }

  /** The values of the editor that several components share. */
  class State {
    var mouseX: i32
    var mouseY: i32
    /** Level mouse state: 1 while the left button is held. */
    var mouseState: nat
    /** Mouse state as set by the last button event. */
    var mouseStatep: nat

    /** Top row of the thumbnail grid. */
    const idxSpritesBatch: int
    var currentSprite: nat

    /** Atlas origin of the sprite shown in the zoomed canvas. */
    var xZoomSprite: nat
    var yZoomSprite: nat
    var zoomSprite: nat
    var idxZoomSprite: nat
    const spriteAvailableZooms: seq<nat>

    /** Top-left corner of the zoomed canvas on screen. */
    const idxXZoomSprite: nat
    const idxYZoomSprite: nat

    /** Selected bank of 64 sprites. */
    var idxMap: nat

    var onCurrentSpriteX: nat
    var onCurrentSpriteY: nat
    var onCurrentSprite: bool

    /** The sprite zoom is always the entry of the zoom table [1, 2, 4] its index names. */
    ghost predicate Valid()
      reads this`idxZoomSprite, this`zoomSprite
    {
      spriteAvailableZooms == [1, 2, 4] && idxZoomSprite < 3 &&
      zoomSprite == spriteAvailableZooms[idxZoomSprite]
    }

    /** `State::new`. */
    constructor ()
      ensures Valid()
      ensures mouseX == 0 && mouseY == 0 && mouseState == 0 && mouseStatep == 0
      ensures idxSpritesBatch == 200 && currentSprite == 0
      ensures xZoomSprite == 0 && yZoomSprite == 0
      ensures zoomSprite == 1 && idxZoomSprite == 0 && spriteAvailableZooms == [1, 2, 4]
      ensures idxXZoomSprite == 10 && idxYZoomSprite == 10
      ensures idxMap == 0
      ensures onCurrentSpriteX == 0 && onCurrentSpriteY == 0 && !onCurrentSprite
    {
      mouseX, mouseY, mouseState, mouseStatep := 0, 0, 0, 0;
      idxSpritesBatch := 200;
      currentSprite := 0;
      xZoomSprite, yZoomSprite := 0, 0;
      zoomSprite, idxZoomSprite := 1, 0;
      spriteAvailableZooms := [1, 2, 4];
      idxXZoomSprite, idxYZoomSprite := 10, 10;
      idxMap := 0;
      onCurrentSpriteX, onCurrentSpriteY, onCurrentSprite := 0, 0, false;
    }

    /** `State::update`: take this frame's mouse from the input state. */
    method Update(players: Players)
      modifies this`mouseState, this`mouseStatep, this`mouseX, this`mouseY
      ensures mouseState == players.mouseState && mouseStatep == players.mouseStateQuick
      ensures mouseX == players.MouseCoordinate(0) && mouseY == players.MouseCoordinate(1)
    {
      mouseState := players.mouseState;
      mouseStatep := players.mouseStateQuick;
      mouseX := players.MouseCoordinate(0);
      mouseY := players.MouseCoordinate(1);
    }
  }

  /** A labelled box that lights up while the last point checked against it lies in it. */
  class Button {
    const x1: int
    const y1: int
    const x2: int
    const y2: int
    const color: nat
    const text: string
    const highlight: bool
    var clicked: bool

    /** `Button::new`: a highlighted button starts out clicked. */
    constructor (x1: int, y1: int, x2: int, y2: int, color: nat, text: string, highlight: bool)
      ensures this.x1 == x1 && this.y1 == y1 && this.x2 == x2 && this.y2 == y2
      ensures this.color == color && this.text == text && this.highlight == highlight
      ensures clicked == highlight
    {
      this.x1, this.y1, this.x2, this.y2 := x1, y1, x2, y2;
      this.color, this.text, this.highlight := color, text, highlight;
      clicked := highlight;
    }

    /** `Button::update`: clicked exactly when (x, y) is in the box, edges included. */
    method Update(x: int, y: int)
      modifies this`clicked
      ensures clicked <==> PointInClosedRect(x, y, x1, y1, x2, y2)
    {
      clicked := (x1 <= x && x <= x2) && (y1 <= y && y <= y2);
    }
  }

  /** A mode-switch icon in the title bar; clicked while the left button is held on it. */
  class Widget {
    const state: State
    const name: string
    const x1: nat
    const y1: nat
    const x2: nat
    const y2: nat
    const w: nat
    const h: nat
    var clicked: bool

    /** `Widget::new`: the box is `w` by `h` from (x, y); nothing is clicked yet. */
    constructor (state: State, name: string, x: nat, y: nat, w: nat, h: nat)
      ensures this.state == state && this.name == name
      ensures x1 == x && y1 == y && x2 == x + w && y2 == y + h && this.w == w && this.h == h
      ensures !clicked
    {
      this.state, this.name := state, name;
      x1, y1, x2, y2 := x, y, x + w, y + h;
      this.w, this.h := w, h;
      clicked := false;
    }

    /**
     * `Widget::update`: clicked only while the level mouse state is 1 and the
     * mouse, read as unsigned, lies in the half-open box.
     */
    method Update()
      modifies this`clicked
      ensures clicked <==> (state.mouseState == 1 &&
                            PointInRect(AsU32(state.mouseX as int), AsU32(state.mouseY as int), x1, y1, x2, y2))
    {
      clicked := false;
      if state.mouseState == 1 {
        var mouseX := AsU32(state.mouseX as int);
        var mouseY := AsU32(state.mouseY as int);
        clicked := (x1 <= mouseX && mouseX < x2) && (y1 <= mouseY && mouseY < y2);
      }
    }
  }
}
