/**
 * The editor as a whole: one shared `State`, the sprite map with its flag
 * panel, the sprite and map editors, and the two title-bar widgets that
 * switch between sprite mode and map mode.
 */
module EditorMain {
  import opened Ints
  import opened Config
  import opened Gfx
  import opened EditorCore
  import opened SpriteTools
  import opened MapTools

  datatype EditorState = SpriteEditing | MapEditing

  /** Boxes of the SPRITES and MAP widgets: 8 x 6 pixels at (222, 1) and (231, 1). */
  predicate OnSpritesWidget(mx: int, my: int) {
    PointInRect(mx, my, 222, 1, 230, 7)
  }

  predicate OnMapWidget(mx: int, my: int) {
    PointInRect(mx, my, 231, 1, 239, 7)
  }

  /** The two widget boxes share no pixel, so one click selects at most one mode. */
  lemma WidgetBoxesAreDisjoint(mx: int, my: int)
    ensures !(OnSpritesWidget(mx, my) && OnMapWidget(mx, my))
  {
  }

  /** The mode after the widget loop: SPRITES selects sprite mode, then MAP (if clicked) selects map mode. */
  function NextMode(mode: EditorState, spritesClicked: bool, mapClicked: bool): (r: EditorState)
    ensures !spritesClicked && !mapClicked ==> r == mode
    ensures mapClicked ==> r == MapEditing
    ensures spritesClicked && !mapClicked ==> r == SpriteEditing
  {
    var afterSprites := if spritesClicked then SpriteEditing else mode;
    if mapClicked then MapEditing else afterSprites
  }

  /**
   * For a click with the level mouse state 1, the mode after the widget loop
   * is the mode of the widget under the mouse, and the old mode when neither is.
   */
  lemma {:induction false} ClickPicksMode(mode: EditorState, mx: int, my: int)
    ensures NextMode(mode, OnSpritesWidget(mx, my), OnMapWidget(mx, my)) ==
      if OnMapWidget(mx, my) then MapEditing else if OnSpritesWidget(mx, my) then SpriteEditing else mode
    ensures OnSpritesWidget(mx, my) ==> NextMode(mode, true, OnMapWidget(mx, my)) == SpriteEditing
  {
    WidgetBoxesAreDisjoint(mx, my);
  }

  /**
   * What `SpritesMap::update` did to the shared state, the flag panel and the
   * sprite flags, given their values before it and the mouse now in the state:
   * a bank click selects the bank and its first sprite, a thumbnail click the
   * sprite under the mouse and its atlas origin, and the flag panel shows and
   * toggles the current sprite's flags.
   */
  ghost predicate SpritesMapStepped(sm: SpritesMap, screen: Screen, idxMap0: nat, sprite0: nat,
                                    zoomX0: nat, zoomY0: nat, flags0: map<(int, int), bool>)
    reads sm.state`onCurrentSprite, sm.state`idxMap, sm.state`currentSprite, sm.state`xZoomSprite,
          sm.state`yZoomSprite, sm.state`mouseState, sm.state`mouseX, sm.state`mouseY, sm.flags`flags, screen`spriteFlags
  {
    var st := sm.state;
    var mx, my := st.mouseX as int, st.mouseY as int;
    !st.onCurrentSprite &&
    st.idxMap == (if st.mouseState == 1 && InBankBar(mx, my) then BankAt(mx) else idxMap0) &&
    st.currentSprite == (if st.mouseState == 1 && InBankBar(mx, my) then 64 * BankAt(mx)
                         else if st.mouseState == 1 && 200 <= my < 232 then ThumbnailSprite(mx, my, idxMap0)
                         else sprite0) &&
    (st.xZoomSprite, st.yZoomSprite) == (if st.mouseState == 1 && 200 <= my < 232 then AtlasOrigin(st.currentSprite)
                                         else (zoomX0, zoomY0)) &&
    (forall k :: 0 <= k < 8 ==>
      FlagValues[k] in sm.flags.flags &&
      sm.flags.flags[FlagValues[k]] == FlagColour(FlagOf(flags0, st.currentSprite, FlagValues[k]))) &&
    screen.spriteFlags == ToggledFlags(flags0, st.currentSprite, FlagHit(st))
  }

  /**
   * What `SpriteEditor::update` did, given the zoom index, zoom, colour and
   * pixels before it: a painting click wrote the colour selected before into
   * the pixel under the mouse (at the zoom before), a selecting click picked
   * the swatch under the mouse, and button 4 of player 0 stepped the zoom.
   */
  ghost predicate SpriteEdited(se: SpriteEditor, players: Players, screen: Screen,
                               idxZoom0: nat, zoom0: nat, colour0: nat, pixels0: map<(int, int), int>)
    requires players.Valid()
    reads se.state`mouseStatep, se.state`mouseX, se.state`mouseY, se.state`xZoomSprite, se.state`yZoomSprite
    reads se.state`idxZoomSprite, se.state`zoomSprite
    reads se.pp`currentColor, se.pp`currentSelectionX, se.pp`currentSelectionY, players`pkeys, screen`pixels
  {
    var st := se.state;
    var t := CanvasTargetAt(st, zoom0);
    var sel := SwatchPick(st);
    screen.pixels == (if t.Some? then pixels0[t.value := colour0] else pixels0) &&
    (if sel.Some? then se.pp.currentSelectionX == sel.value.0 && se.pp.currentSelectionY == sel.value.1
     else se.pp.currentColor == colour0) &&
    st.idxZoomSprite == (if players.Btnp(0, 4) then CycleAfter(idxZoom0, 1) else idxZoom0) &&
    st.idxZoomSprite < 3 && st.zoomSprite == [1, 2, 4][st.idxZoomSprite]
  }

  /**
   * What `MapEditor::update` did apart from the cache, given the view and the
   * map before it: the view panned by the arrow presses within the old zoom's
   * limits, button 4 stepped the zoom, the selection moved to the cell under a
   * mouse in the view, a level click there painted the current sprite's block
   * into the map, and `ok` is false exactly when that block runs past the cache.
   */
  ghost predicate MapEdited(me: MapEditor, players: Players, screen: Screen, ok: bool,
                            offsetX0: int, offsetY0: int, idxZoom0: nat,
                            select0: seq<int>, cell0: seq<int>, cells0: map<(int, int), int>)
    requires players.Valid()
    reads me`offsetX, me`offsetY, me`idxZoom, me`sizeSprite, me`selectField, me`currentSprite
    reads me.state`mouseState, me.state`mouseX, me.state`mouseY, me.state`zoomSprite, me.state`currentSprite
    reads players`pkeys, screen`cells
  {
    var st := me.state;
    var mx, my := st.mouseX as int, st.mouseY as int;
    idxZoom0 < 3 && IsCellSize(me.sizeSprite) && |me.currentSprite| == 2 &&
    me.offsetX == Pan(offsetX0, players.Btnp(0, 0), players.Btnp(0, 1), PanLimitsX[idxZoom0]) &&
    me.offsetY == Pan(offsetY0, players.Btnp(0, 2), players.Btnp(0, 3), PanLimitsY[idxZoom0]) &&
    me.idxZoom == (if players.Btnp(0, 4) then (idxZoom0 + 1) % 3 else idxZoom0) &&
    (ok <==> !(InView(mx, my) && st.mouseState == 1) ||
             BlockFits(ViewCell(mx, me.offsetX, me.sizeSprite, 0), ViewCell(my, me.offsetY, me.sizeSprite, 8), st.zoomSprite)) &&
    (ok && InView(mx, my) ==>
      me.selectField == [SelectCorner(mx, me.sizeSprite), SelectCorner(my, me.sizeSprite)] &&
      me.currentSprite == [ViewCell(mx, me.offsetX, me.sizeSprite, 0), ViewCell(my, me.offsetY, me.sizeSprite, 8)]) &&
    (ok && !InView(mx, my) ==> me.selectField == select0 && me.currentSprite == cell0) &&
    (ok && InView(mx, my) && st.mouseState == 1 ==>
      CellsPainted(cells0, screen.cells, me.currentSprite[0], me.currentSprite[1], st.zoomSprite, st.currentSprite)) &&
    (!(InView(mx, my) && st.mouseState == 1) ==> screen.cells == cells0)
  }

  /**
   * The cache half of `MapEditor::update`, given the cache before it: the
   * painted block lands in the cache too, and nothing else changes.
   */
  ghost predicate MapCacheEdited(me: MapEditor, ok: bool, cache0: seq<int>)
    reads me`currentSprite, me.state`mouseState, me.state`mouseX, me.state`mouseY
    reads me.state`zoomSprite, me.state`currentSprite, me.cache
  {
    var st := me.state;
    var mx, my := st.mouseX as int, st.mouseY as int;
    |me.currentSprite| == 2 &&
    (ok && InView(mx, my) && st.mouseState == 1 ==>
      CachePainted(cache0, me.cache[..], me.currentSprite[0], me.currentSprite[1], st.zoomSprite, st.currentSprite)) &&
    (!(InView(mx, my) && st.mouseState == 1) ==> me.cache[..] == cache0)
  }

  /** The selection and sprite flags that `SpritesMap::update` starts from. */
  datatype SelectionBefore = SelectionBefore(idxMap: nat, currentSprite: nat, zoomX: nat, zoomY: nat,
                                             spriteFlags: map<(int, int), bool>)

  /**
   * What the editors' update starts from: the mode that picks the editor, the
   * sprite editor's zoom, colour, selection and pixels, and the map editor's
   * view, selection, map and cache.
   */
  datatype EditorsBefore = EditorsBefore(
    mode: EditorState,
    idxZoomSprite: nat, zoomSprite: nat, colour: nat, selectionX: int, selectionY: int, pixels: map<(int, int), int>,
    offsetX: int, offsetY: int, idxZoom: nat, selectField: seq<int>, cell: seq<int>,
    cells: map<(int, int), int>, cache: seq<int>)

  class Editor {
    const state: State
    var stateEditor: EditorState
    const sm: SpritesMap
    const me: MapEditor
    const se: SpriteEditor
    const spritesWidget: Widget
    const mapWidget: Widget
    const widgets: seq<Widget>

    /** Every component shares the one `State`, and the two widgets sit at their places in the title bar. */
    ghost predicate Wired() {
      sm.state == state && me.state == state && se.state == state &&
      widgets == [spritesWidget, mapWidget] && spritesWidget != mapWidget &&
      widgets[0].state == state && widgets[0].name == "SPRITES" &&
      widgets[0].x1 == 222 && widgets[0].y1 == 1 && widgets[0].x2 == 230 && widgets[0].y2 == 7 &&
      widgets[1].state == state && widgets[1].name == "MAP" &&
      widgets[1].x1 == 231 && widgets[1].y1 == 1 && widgets[1].x2 == 239 && widgets[1].y2 == 7
    }

    ghost predicate Valid()
      reads state`idxZoomSprite, state`zoomSprite, state`idxMap, sm.buttonsMap, sm.flags`flags, me, se.pp
    {
      Wired() && state.Valid() && sm.Valid() && me.Valid() && se.Valid()
    }

    /** `Editor::new`: every component shares one fresh `State`; the editor starts in sprite mode. */
    constructor ()
      ensures Valid() && fresh(state) && stateEditor == SpriteEditing
    {
      var st := new State();
      var sprites := new Widget(st, "SPRITES", 222, 1, 8, 6);
      var map_ := new Widget(st, "MAP", 231, 1, 8, 6);
      state := st;
      stateEditor := SpriteEditing;
      sm := new SpritesMap(st);
      me := new MapEditor(st);
      se := new SpriteEditor(st);
      spritesWidget, mapWidget := sprites, map_;
      widgets := [sprites, map_];
    }

    /** The selection and sprite flags as they stand. */
    ghost function SelectionNow(screen: Screen): SelectionBefore
      reads state`idxMap, state`currentSprite, state`xZoomSprite, state`yZoomSprite, screen`spriteFlags
    {
      SelectionBefore(state.idxMap, state.currentSprite, state.xZoomSprite, state.yZoomSprite, screen.spriteFlags)
    }

    /** The mode and the editors' fields as they stand. */
    ghost function EditorsNow(screen: Screen): EditorsBefore
      reads this`stateEditor, state`idxZoomSprite, state`zoomSprite
      reads se.pp`currentColor, se.pp`currentSelectionX, se.pp`currentSelectionY, screen`pixels, screen`cells
      reads me`offsetX, me`offsetY, me`idxZoom, me`selectField, me`currentSprite, me.cache
    {
      EditorsBefore(stateEditor, state.idxZoomSprite, state.zoomSprite,
                    se.pp.currentColor, se.pp.currentSelectionX, se.pp.currentSelectionY, screen.pixels,
                    me.offsetX, me.offsetY, me.idxZoom, me.selectField, me.currentSprite, screen.cells, me.cache[..])
    }

    /** The sprite map has stepped from `b` (see `SpritesMapStepped`). */
    ghost predicate SelectionStepped(screen: Screen, b: SelectionBefore)
      reads sm.state`onCurrentSprite, sm.state`idxMap, sm.state`currentSprite, sm.state`xZoomSprite, sm.state`yZoomSprite
      reads sm.state`mouseState, sm.state`mouseX, sm.state`mouseY, sm.flags`flags, screen`spriteFlags
    {
      SpritesMapStepped(sm, screen, b.idxMap, b.currentSprite, b.zoomX, b.zoomY, b.spriteFlags)
    }

    /**
     * Only the editor of mode `b.mode` has stepped from `b`: in sprite mode the
     * sprite editor did (`SpriteEdited`) while the map editor's view, selection
     * and the map stay; in map mode the map editor did (`MapEdited`) while the
     * palette, the sprite zoom and the pixels stay. A panic only happens in map mode.
     */
    ghost predicate EditorStepped(players: Players, screen: Screen, ok: bool, b: EditorsBefore)
      requires players.Valid()
      reads se.state`mouseStatep, se.state`mouseX, se.state`mouseY, se.state`xZoomSprite, se.state`yZoomSprite
      reads se.state`idxZoomSprite, se.state`zoomSprite
      reads me.state`mouseState, me.state`mouseX, me.state`mouseY, me.state`zoomSprite, me.state`currentSprite
      reads se.pp`currentColor, se.pp`currentSelectionX, se.pp`currentSelectionY, players`pkeys, screen`pixels, screen`cells
      reads me`offsetX, me`offsetY, me`idxZoom, me`sizeSprite, me`selectField, me`currentSprite
    {
      (b.mode == SpriteEditing ==>
        ok && SpriteEdited(se, players, screen, b.idxZoomSprite, b.zoomSprite, b.colour, b.pixels) &&
        me.offsetX == b.offsetX && me.offsetY == b.offsetY && me.idxZoom == b.idxZoom &&
        me.selectField == b.selectField && me.currentSprite == b.cell && screen.cells == b.cells) &&
      (b.mode == MapEditing ==>
        MapEdited(me, players, screen, ok, b.offsetX, b.offsetY, b.idxZoom, b.selectField, b.cell, b.cells) &&
        se.pp.currentColor == b.colour && se.pp.currentSelectionX == b.selectionX && se.pp.currentSelectionY == b.selectionY &&
        se.state.idxZoomSprite == b.idxZoomSprite && se.state.zoomSprite == b.zoomSprite && screen.pixels == b.pixels)
    }

    /** The cache half of `EditorStepped`: kept in sprite mode, painted like the map in map mode. */
    ghost predicate CacheStepped(ok: bool, b: EditorsBefore)
      reads me`currentSprite, me.state`mouseState, me.state`mouseX, me.state`mouseY, me.state`zoomSprite, me.state`currentSprite, me.cache
    {
      (b.mode == SpriteEditing ==> me.cache[..] == b.cache) &&
      (b.mode == MapEditing ==> MapCacheEdited(me, ok, b.cache))
    }

    /**
     * The update half of `Editor::draw`: take the mouse from the input state,
     * update the sprite map and the active editor, test both widgets, and
     * switch mode on a widget click; entering map mode reloads the cache from
     * the console's map. `ok` is false when the map editor stopped with a
     * panic, in which case nothing after it runs.
     */
    method Draw(players: Players, screen: Screen) returns (ok: bool)
      requires Valid() && players.Valid()
      modifies state, sm.buttonsMap, sm.flags, me, me.cache, se.pp, spritesWidget`clicked, mapWidget`clicked, screen, this`stateEditor
      ensures Valid()
      ensures state.mouseState == players.mouseState && state.mouseStatep == players.mouseStateQuick
      ensures state.mouseX == players.mouseX && state.mouseY == players.mouseY
      ensures SelectionStepped(screen, old(SelectionNow(screen)))
      ensures EditorStepped(players, screen, ok, old(EditorsNow(screen)))
      ensures !(ok && widgets[1].clicked) ==> CacheStepped(ok, old(EditorsNow(screen)))
      ensures ok ==> forall k :: 0 <= k < 2 ==>
        (widgets[k].clicked <==> (players.mouseState == 1 &&
                                  PointInRect(players.mouseX as int, players.mouseY as int,
                                              widgets[k].x1, widgets[k].y1, widgets[k].x2, widgets[k].y2)))
      ensures ok ==> stateEditor == NextMode(old(stateEditor), widgets[0].clicked, widgets[1].clicked)
      ensures ok && widgets[1].clicked ==> Mirrors(me.cache[..], screen.cells)
      ensures !ok ==> old(stateEditor) == MapEditing
    {
      ghost var selection, editors := SelectionNow(screen), EditorsNow(screen);
      ok := UpdateComponents(players, screen);
      if ok {
        UpdateMode(players, screen, selection, editors);
      }
    }

    /** The two widget loops of `Editor::draw`: test the widgets, then switch to the mode of a clicked one. */
    method UpdateMode(players: Players, screen: Screen, ghost selection: SelectionBefore, ghost editors: EditorsBefore)
      requires Valid() && players.Valid()
      requires state.mouseState == players.mouseState && state.mouseX == players.mouseX && state.mouseY == players.mouseY
      requires SelectionStepped(screen, selection) && EditorStepped(players, screen, true, editors)
      requires CacheStepped(true, editors)
      modifies spritesWidget`clicked, mapWidget`clicked, this`stateEditor, me.cache
      ensures Valid()
      ensures SelectionStepped(screen, selection) && EditorStepped(players, screen, true, editors)
      ensures !widgets[1].clicked ==> CacheStepped(true, editors)
      ensures forall k :: 0 <= k < 2 ==>
        (widgets[k].clicked <==> (players.mouseState == 1 &&
                                  PointInRect(players.mouseX as int, players.mouseY as int,
                                              widgets[k].x1, widgets[k].y1, widgets[k].x2, widgets[k].y2)))
      ensures stateEditor == NextMode(old(stateEditor), widgets[0].clicked, widgets[1].clicked)
      ensures widgets[1].clicked ==> Mirrors(me.cache[..], screen.cells)
      ensures !widgets[1].clicked ==> me.cache[..] == old(me.cache[..])
    {
      UpdateWidgets(players);
      SwitchMode(screen);
    }

    /** First part of `Editor::draw`: the shared state, the sprite map, then the active editor. */
    method UpdateComponents(players: Players, screen: Screen) returns (ok: bool)
      requires Valid() && players.Valid()
      modifies state`mouseState, state`mouseStatep, state`mouseX, state`mouseY
      modifies state`onCurrentSprite, state`idxMap, state`currentSprite, state`xZoomSprite, state`yZoomSprite
      modifies state`idxZoomSprite, state`zoomSprite
      modifies sm.buttonsMap, sm.flags`flags, me, me.cache, se.pp, screen
      ensures Valid()
      ensures state.mouseState == players.mouseState && state.mouseStatep == players.mouseStateQuick
      ensures state.mouseX == players.mouseX && state.mouseY == players.mouseY
      ensures SelectionStepped(screen, old(SelectionNow(screen)))
      ensures EditorStepped(players, screen, ok, old(EditorsNow(screen)))
      ensures CacheStepped(ok, old(EditorsNow(screen)))
      ensures !ok ==> stateEditor == MapEditing
    {
      ghost var editors := EditorsNow(screen);
      TakeInput(players, screen);
      assert EditorsNow(screen) == editors;
      ghost var selection := old(SelectionNow(screen));
      assert SelectionStepped(screen, selection);
      ok := UpdateActiveEditor(players, screen);
      assert SelectionStepped(screen, selection);
    }

    /** The shared state takes this frame's mouse, then the sprite map reacts to it. */
    method TakeInput(players: Players, screen: Screen)
      requires Valid() && players.Valid()
      modifies state`mouseState, state`mouseStatep, state`mouseX, state`mouseY
      modifies state`onCurrentSprite, state`idxMap, state`currentSprite, state`xZoomSprite, state`yZoomSprite
      modifies sm.buttonsMap, sm.flags`flags, screen`spriteFlags
      ensures Valid()
      ensures state.mouseState == players.mouseState && state.mouseStatep == players.mouseStateQuick
      ensures state.mouseX == players.mouseX && state.mouseY == players.mouseY
      ensures SelectionStepped(screen, old(SelectionNow(screen)))
    {
      state.Update(players);
      sm.Update(screen);
    }

    /** The `match` of `Editor::draw`: only the editor of the current mode updates. */
    method UpdateActiveEditor(players: Players, screen: Screen) returns (ok: bool)
      requires Valid() && players.Valid()
      modifies state`idxZoomSprite, state`zoomSprite, me, me.cache, se.pp, screen`pixels, screen`cells
      ensures Valid()
      ensures unchanged(state`mouseState, state`mouseX, state`mouseY)
      ensures EditorStepped(players, screen, ok, old(EditorsNow(screen)))
      ensures CacheStepped(ok, old(EditorsNow(screen)))
      ensures !ok ==> stateEditor == MapEditing
    {
      match stateEditor {
        case SpriteEditing =>
          ok := true;
          UpdateSpriteEditor(players, screen);
        case MapEditing =>
          ok := UpdateMapEditor(players, screen);
      }
    }

    /** The sprite arm of the `match`: the sprite editor updates, the map editor is left alone. */
    method UpdateSpriteEditor(players: Players, screen: Screen)
      requires Valid() && players.Valid() && stateEditor == SpriteEditing
      modifies state`idxZoomSprite, state`zoomSprite, se.pp, screen`pixels
      ensures Valid()
      ensures EditorStepped(players, screen, true, old(EditorsNow(screen)))
      ensures CacheStepped(true, old(EditorsNow(screen)))
    {
      se.Update(players, screen);
    }

    /** The map arm of the `match`: the map editor updates, the sprite editor is left alone. */
    method UpdateMapEditor(players: Players, screen: Screen) returns (ok: bool)
      requires Valid() && players.Valid() && stateEditor == MapEditing
      modifies me, me.cache, screen`cells
      ensures Valid()
      ensures EditorStepped(players, screen, ok, old(EditorsNow(screen)))
      ensures CacheStepped(ok, old(EditorsNow(screen)))
    {
      ok := me.Update(players, screen);
    }

    /** The first widget loop of `Editor::draw`: every widget tests the mouse. */
    method UpdateWidgets(players: Players)
      requires Valid()
      requires state.mouseState == players.mouseState && state.mouseX == players.mouseX && state.mouseY == players.mouseY
      modifies spritesWidget`clicked, mapWidget`clicked
      ensures Valid()
      ensures forall k :: 0 <= k < 2 ==>
        (widgets[k].clicked <==> (players.mouseState == 1 &&
                                  PointInRect(players.mouseX as int, players.mouseY as int,
                                              widgets[k].x1, widgets[k].y1, widgets[k].x2, widgets[k].y2)))
    {
      var i := 0;
      while i < |widgets|
        invariant 0 <= i <= 2
        invariant forall k :: 0 <= k < i ==>
          (widgets[k].clicked <==> (players.mouseState == 1 &&
                                    PointInRect(players.mouseX as int, players.mouseY as int,
                                                widgets[k].x1, widgets[k].y1, widgets[k].x2, widgets[k].y2)))
      {
        widgets[i].Update();
        UnsignedTestMatchesSigned(state.mouseX, state.mouseY, widgets[i].x1, widgets[i].y1, widgets[i].x2, widgets[i].y2);
        i := i + 1;
      }
    }

    /** The second widget loop of `Editor::draw`: a clicked widget selects its mode; MAP also reloads the cache. */
    method SwitchMode(screen: Screen)
      requires Valid()
      modifies this`stateEditor, me.cache
      ensures Valid()
      ensures stateEditor == NextMode(old(stateEditor), widgets[0].clicked, widgets[1].clicked)
      ensures widgets[1].clicked ==> Mirrors(me.cache[..], screen.cells)
      ensures !widgets[1].clicked ==> me.cache[..] == old(me.cache[..])
    {
      var i := 0;
      while i < |widgets|
        invariant 0 <= i <= 2
        invariant stateEditor == NextMode(old(stateEditor), i > 0 && widgets[0].clicked, i > 1 && widgets[1].clicked)
        invariant i > 1 && widgets[1].clicked ==> Mirrors(me.cache[..], screen.cells)
        invariant !(i > 1 && widgets[1].clicked) ==> me.cache[..] == old(me.cache[..])
      {
        var isClick := widgets[i].clicked;
        if isClick {
          if widgets[i].name == "SPRITES" {
            stateEditor := SpriteEditing;
          }
          if widgets[i].name == "MAP" {
            stateEditor := MapEditing;
            me.Init(screen);
          }
        }
        i := i + 1;
      }
    }
  }
}
