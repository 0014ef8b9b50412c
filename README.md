# PX8 sprite/map editor, input state and chiptune widgets in Dafny

This project models three parts of the PX8 fantasy console:

- **The built-in sprite/map editor** (`src/px8/editor.rs`). It covers the shared
  `State` record, the hit tests, the palette picker, the per-sprite flag panel,
  the sprite zoom cycle, the bank buttons and the thumbnail grid. It also covers
  the map editor with its pan/zoom and block painting into a 128 x 32 cache, and
  the SPRITES/MAP mode switch.
- **The console's input bookkeeping** (`unicorn/src/config/mod.rs`). It covers
  the mouse level and one-frame state, keys held by scancode with the Ctrl/GUI
  copy/paste/cut translation, and per-player console keys behind `btn`/`btnp`.
- **The widgets of the chiptune cartridge** (`examples/audio/audio.py`). These
  are a closed-box push button and a volume counter in [0, 128].

Objects the source updates in place are classes. Each method states the new
state it leaves. For the editor's per-frame methods that state is named by
predicates in `EditorMain`: `SelectionStepped` for the sprite map, and
`EditorStepped` and `CacheStepped` for whichever editor the mode picks. The
lemmas beside the classes prove the properties the editor relies on.
The modules are:

- `Ints`: `i32` and the `as u32` reading, min/max, and the 3-step cycle.
- `Gfx`: the console screen as an abstract store with sprite pixels (`sset`),
  per-sprite flags (`fget`/`fset`) and map cells (`mget`/`mset`). Unset entries
  read as 0 or false.
- `Config`: input state.
- `EditorCore`: `point_in_rect`, `State`, `Button`, `Widget`.
- `SpriteTools`: palette picker, flags, sprite editor, sprite map.
- `MapTools`: map editor.
- `EditorMain`: the editor and its mode switch.
- `Audio`: the cartridge widgets.

Rust's shared `Arc<Mutex<State>>` is one `State` object that every component
holds by reference.

Rust casts from float to integer saturate, so the thumbnail column of a
negative mouse x is 0; `ThumbnailSprite` states this with `Max(0, mx / 8)`.
Every other `f64 … floor()` in the editor is applied to non-negative integers and
is integer division here.

The map zoom levels {1, 0.5, 0.25} are kept as reals in `MapEditor.zoom`. The
methods use the integer tables `CellSizes`, `PanLimitsX` and `PanLimitsY`, and
`ZoomTablesMatchFormulas` proves that these tables equal the source's float
formulas.

The Rust program panics when a painted block runs past cache index 4095. The
model reports that panic as `ok == false` from `MapEditor.PaintBlock`,
`MapEditor.Update` and `Editor.Draw`. Nothing after it runs.

Behaviour of the code worth noting, modelled as written:

- **Flag colours.** The flag panel's stored colour for a bit is computed from the
  bit *before* this frame's toggle (`src/px8/editor.rs:293-307`). It is not
  re-read after the toggle.
- **Palette clicks.** `Players::update` never clears the mouse's quick state
  (`unicorn/src/config/mod.rs:138-160`). Only `mouse_button_up` does. So while the
  button is held, the palette picker keeps painting and selecting every frame;
  it is not edge-triggered.
- **Column 128 and beyond.** The map view can address column 128 at zoom 1
  (`ViewReachesColumn128`). The column offset is clamped only when the right
  key is pressed (`src/px8/editor.rs:379-382`); cycling the zoom keeps it at
  104, so at zoom 0.5 the view reaches column 152 and at zoom 0.25 column 200
  (`ViewReachesColumn200`). A block painted at column 128 writes cache index `128 + 128 * y`, which is the first
  cell of the next row. The map cell written is (128, y). Cache and map then
  disagree, as `PaintPastLastColumnBreaksMirror` shows. `PaintKeepsMirror`
  proves that agreement is kept whenever the block stays inside the 128
  columns.
- **Thumbnail clicks.** A click in the thumbnail rows does not bound the mouse
  column to 16. This is kept as written.

## Model

| member | source | states |
|---|---|---|
| Ints.AsU32 | src/px8/editor.rs:160-161 | the `as u32` reading of an `i32` lies in [0, 2^32): it is the value itself when non-negative and the value plus 2^32 when negative |
| Ints.CycleAfterIsModular | src/px8/editor.rs:496-499 | advancing an index in [0, 3) by `(i + 1) % 3` n times lands on `(i + n) % 3`, still in [0, 3) |
| Config.NewPlayerKeys | unicorn/src/config/mod.rs:35-62 | a fresh player has all eight console keys present and released in both the held and the quick map |
| Config.ButtonIndex | unicorn/src/config/mod.rs:258-275 | every console key has a button index in 0..8, and that index reads back the same key through the `get_value` table |
| Config.ButtonKeyIsBijective | unicorn/src/config/mod.rs:261-270 | the index-to-key table of `get_value` is one to one on 0..8 and inverted by `ButtonIndex` |
| Config.Remap | unicorn/src/config/mod.rs:167-178 | the scancode changes exactly when the modifier is left/right Ctrl or GUI and the key is C, V or X, and then becomes Copy, Paste or Cut |
| Config.ClearAll | unicorn/src/config/mod.rs:146-150 | after the loop over a quick map every entry is false and no entry was added or removed |
| Config.ClearAllPlayers | unicorn/src/config/mod.rs:152-159 | after the loop over the players every player's quick map is all false with the same keys, and the held keys are untouched |
| Config.Players.constructor | unicorn/src/config/mod.rs:83-96 | players 0 and 1 exist with every key released, no scancode is recorded, the mouse is at rest, and every `btn`/`btnp` query is false |
| Config.Players.MouseButtonDown | unicorn/src/config/mod.rs:118-131 | the level state becomes 1, 2, 4 or 0 for left, right, middle or none (first match wins) and the quick state equals it |
| Config.Players.MouseButtonUp | unicorn/src/config/mod.rs:133-136 | both mouse states become 0 |
| Config.Players.Update | unicorn/src/config/mod.rs:138-160 | the level state drops to 0 only on timeout; every quick entry, by scancode and per player, is switched off with the same keys; held keys are kept; afterwards no `btnp` query is true |
| Config.Players.KeyDown | unicorn/src/config/mod.rs:162-186 | the translated scancode is recorded as held and pressed, and a bound console key is pressed for its player |
| Config.Players.KeyDownDirect | unicorn/src/config/mod.rs:188-200 | a known player's key becomes true in both maps, so its `btn` and `btnp` read true; an unknown player changes nothing |
| Config.Players.KeyDirecHorUp | unicorn/src/config/mod.rs:202-210 | only Left and Right of a known player's held map are released; quick maps and other players are unchanged |
| Config.Players.KeyDirecVerUp | unicorn/src/config/mod.rs:212-220 | only Up and Down of a known player's held map are released; quick maps and other players are unchanged |
| Config.Players.KeyUp | unicorn/src/config/mod.rs:222-244 | the translated scancode is recorded as released in both scancode maps, and a bound console key is released for its player |
| Config.Players.KeyUpDirect | unicorn/src/config/mod.rs:246-256 | a known player's key becomes false in both maps; an unknown player changes nothing |
| Config.Players.GetValue | unicorn/src/config/mod.rs:258-275 | true exactly for a known player, an index in 0..8 and that index's key held; any other index or player reads false |
| Config.Players.GetValueQuick | unicorn/src/config/mod.rs:278-295 | the same lookup in the quick map |
| Config.Players.Btn | unicorn/src/config/mod.rs:297-299 | `btn` is the held-key lookup of `get_value` |
| Config.Players.Btnp | unicorn/src/config/mod.rs:301-303 | `btnp` is the quick-key lookup of `get_value_quick` |
| Config.Players.BtnRaw | unicorn/src/config/mod.rs:305-310 | true exactly when the scancode was recorded as held; a scancode never seen reads false |
| Config.Players.BtnpRaw | unicorn/src/config/mod.rs:312-317 | true exactly when the scancode was recorded as pressed this frame; a scancode never seen reads false |
| Config.Players.MouseCoordinate | unicorn/src/config/mod.rs:319-325 | index 0 gives the mouse x, index 1 the mouse y, any other index 0 |
| EditorCore.PointInRect | src/px8/editor.rs:11-13 | an empty box is never hit, and a hit lies in the closed box one pixel narrower and shorter |
| EditorCore.PointInClosedRect | src/px8/editor.rs:102-104 | only a non-empty closed box is hit |
| EditorCore.ClosedIsHalfOpenWidened | src/px8/editor.rs:11-13 | the closed test of `Button::update` is the half-open `point_in_rect` of the box one pixel wider and taller |
| EditorCore.UnsignedTestMatchesSigned | src/px8/editor.rs:159-163 | reading the mouse as `u32` before a half-open test against a box in the non-negative range gives the signed answer: a negative coordinate misses |
| EditorCore.State.constructor | src/px8/editor.rs:41-66 | every field takes the value `State::new` gives it, and the zoom is entry 0 of the table [1, 2, 4] |
| EditorCore.State.Update | src/px8/editor.rs:68-73 | the mouse level and quick states and coordinates 0 and 1 are copied from the input state |
| EditorCore.Button.constructor | src/px8/editor.rs:89-100 | the box and label are stored and the button starts clicked exactly when highlighted |
| EditorCore.Button.Update | src/px8/editor.rs:102-104 | clicked exactly when the point lies in the box, edges included |
| EditorCore.Widget.constructor | src/px8/editor.rs:135-149 | the box runs from (x, y) to (x + w, y + h) and nothing is clicked |
| EditorCore.Widget.Update | src/px8/editor.rs:155-165 | clicked exactly when the level mouse state is 1 and the mouse, read as `u32`, lies in the half-open box |
| SpriteTools.CanvasOffset | src/px8/editor.rs:218-219 | the offset is the floor of `d * zoom / 16`, and a point of the 128-pixel canvas maps below `8 * zoom` |
| SpriteTools.CanvasTargetAt | src/px8/editor.rs:206-225 | for a given zoom: a pixel is targeted exactly when the quick mouse state is 1 and the mouse is in the 128 x 128 canvas, and the target lies inside the `8 * zoom` square at the atlas origin |
| SpriteTools.CanvasTarget | src/px8/editor.rs:206-225 | a pixel is targeted exactly when the quick mouse state is 1 and the mouse is in the 128 x 128 canvas at (10, 10); the target lies inside the zoom square at the current atlas origin |
| SpriteTools.SwatchAt | src/px8/editor.rs:232-233 | a point of the swatch grid picks a column and row in [0, 4) whose 8 x 8 swatch contains the point |
| SpriteTools.SwatchPick | src/px8/editor.rs:227-238 | a swatch is picked exactly when the quick mouse state is 1 and the mouse is in the 32 x 32 grid at (192, 16), and the pick is in [0, 4)² |
| SpriteTools.SwatchPickInvertsLayout | src/px8/editor.rs:243-256 | clicking anywhere in the swatch drawn for colour c selects colour c |
| SpriteTools.CanvasAndSwatchesAreDisjoint | src/px8/editor.rs:213-231 | no click both paints the canvas and picks a swatch |
| SpriteTools.PalettePicker.constructor | src/px8/editor.rs:194-203 | colour 0 and selection (0, 0) at the grid origin (192, 16) |
| SpriteTools.PalettePicker.Update | src/px8/editor.rs:205-240 | exactly the targeted canvas pixel gets the colour held before the update and no other pixel changes; a pick sets selection (col, row) and colour `col + 4 * row` < 16; otherwise colour and selection are unchanged |
| SpriteTools.PalettePicker.PaintCanvas | src/px8/editor.rs:207-225 | with the quick state 1, exactly the targeted canvas pixel gets the current colour, and no pixel changes when the mouse is off the canvas |
| SpriteTools.PalettePicker.PickSwatch | src/px8/editor.rs:227-238 | with the quick state 1, a point in the grid selects its swatch with a colour below 16; elsewhere colour and selection are kept |
| SpriteTools.FlagValuesIncrease | src/px8/editor.rs:274 | the eight flag values are strictly increasing, hence distinct |
| SpriteTools.FlagAt | src/px8/editor.rs:305-306 | a hit names a flag index below 8 |
| SpriteTools.FlagAtMatchesBoxes | src/px8/editor.rs:292-311 | the mouse hits flag k exactly when it lies in `[128 + 6k, 130 + 6k) x [193, 195)`, so at most one box fires |
| SpriteTools.FlagColour | src/px8/editor.rs:294-297 | colour 11 exactly for a set flag and 8 exactly for a clear one |
| SpriteTools.ToggledFlags | src/px8/editor.rs:307 | the hit flag of the current sprite becomes the negation of its old value; every other flag of every sprite is unchanged |
| SpriteTools.FlagHit | src/px8/editor.rs:300-309 | a toggle happens only while the level mouse state is 1 |
| SpriteTools.Flags.constructor | src/px8/editor.rs:273-286 | every flag value has stored colour 0 |
| SpriteTools.Flags.Update | src/px8/editor.rs:288-313 | each flag's colour is 11 if its bit was set before the update and 8 otherwise; the sprite flags are the old ones with at most the hit bit flipped |
| SpriteTools.SpriteEditor.constructor | src/px8/editor.rs:484-489 | the editor and its palette picker share the given state |
| SpriteTools.SpriteEditor.Update | src/px8/editor.rs:491-502 | the palette picker's effect as above; on `btnp(0, 4)` the zoom index advances by one modulo 3 and the zoom is that entry of [1, 2, 4], otherwise both are kept |
| SpriteTools.SpriteZoomCycles | src/px8/editor.rs:494-502 | n zoom triggers from index i give zoom `[1, 2, 4][(i + n) % 3]`, and three triggers return to the start |
| SpriteTools.BankAt | src/px8/editor.rs:563-566 | every column of the bank bar lies in the closed box of the bank it names |
| SpriteTools.BankButtonsPartitionBar | src/px8/editor.rs:583-596 | inside the bar, bank button k reports a click exactly when k is the bank under the mouse, so exactly one button fires |
| SpriteTools.ThumbnailSprite | src/px8/editor.rs:602-607 | the sprite is column `max(0, mx / 8)` plus 16 per row below y = 200 plus 64 per bank |
| SpriteTools.ThumbnailPickInvertsLayout | src/px8/editor.rs:602-607 | clicking anywhere in the 8 x 8 thumbnail of sprite n of a bank selects that sprite |
| SpriteTools.AtlasOrigin | src/px8/editor.rs:609-611 | the origin is a pair of multiples of 8 with x below 128 from which the sprite number is recovered |
| SpriteTools.ThumbnailExample | src/px8/editor.rs:602-611 | bank 2, cell (3, 1) is sprite 147 at atlas origin (24, 72) |
| SpriteTools.SpritesMap.constructor | src/px8/editor.rs:561-574 | four bank buttons at the listed boxes, only the first highlighted |
| SpriteTools.SpritesMap.Update | src/px8/editor.rs:576-617 | with the level mouse state 1, a click in the bank bar selects bank k and sprite 64k, and a click in the thumbnail rows selects the thumbnail sprite and its atlas origin; otherwise these are unchanged; the flag panel updates as above |
| SpriteTools.SpritesMap.SelectBank | src/px8/editor.rs:586-596 | after checking the four buttons against a point of the bar, the bank under the point is selected with its first sprite, and only its button is lit |
| SpriteTools.SpritesMap.SelectThumbnail | src/px8/editor.rs:600-611 | the current sprite is the thumbnail under the point in the selected bank, and the canvas origin is its atlas origin |
| MapTools.SizeSprite | src/px8/editor.rs:398 | the cell size is the floor of `8 * zoom` |
| MapTools.PanLimitX | src/px8/editor.rs:381 | the largest column offset is the floor of `(128 - 24 zoom) zoom` |
| MapTools.PanLimitY | src/px8/editor.rs:391 | the largest row offset is the floor of `(32 - 16 zoom) zoom` |
| MapTools.ZoomTablesMatchFormulas | src/px8/editor.rs:381-398 | for each zoom the integer cell size and pan limits equal the floor formulas of the source |
| MapTools.Pan | src/px8/editor.rs:374-392 | the offset stays non-negative, a forward step stays at most the limit, no key leaves it unchanged, and a step moves it by at most 8 |
| MapTools.SelectCorner | src/px8/editor.rs:409-410 | the corner is a multiple of the cell size, at most 192 and the mouse coordinate, and the mouse lies in that cell unless clamped |
| MapTools.CellUnder | src/px8/editor.rs:412-413 | the map cell is the corner's cell in view plus the pan offset, and never left of the offset |
| MapTools.InView | src/px8/editor.rs:404-406 | a point of the view lies in columns [0, 240) and rows [8, 190), below the title bar |
| MapTools.BlockFits | src/px8/editor.rs:417-422 | when it holds, every cell of the block has a cache index below 4096; when it fails, the block is non-empty and its last cell's index is past the cache (the Rust index panics) |
| MapTools.ViewCell | src/px8/editor.rs:409-413 | a non-negative pan offset gives a non-negative cell |
| MapTools.ViewReachesColumn128 | src/px8/editor.rs:409-413 | at zoom 1 and full pan, the mouse at x = 200 selects map column 128 |
| MapTools.ViewReachesColumn200 | src/px8/editor.rs:395-413 | at zoom 0.25 with the offset kept from zoom 1's full pan, the view corner at x = 192 selects map column 200 |
| MapTools.PaintedBlockCells | src/px8/editor.rs:417-422 | after painting, cache cell `(nx + dx) + 128 (ny + dy)` holds `current_sprite + dx + 16 dy` |
| MapTools.PaintKeepsMirror | src/px8/editor.rs:417-425 | a block inside the 128 columns painted into both cache and map keeps the cache equal to the map |
| MapTools.PaintPastLastColumnBreaksMirror | src/px8/editor.rs:421-423 | a block at column 128 leaves cache and map disagreeing |
| MapTools.MapEditor.constructor | src/px8/editor.rs:349-363 | no pan, zoom 1 with cell size 8, selection (0, 8), and an all-zero cache of 4096 cells |
| MapTools.MapEditor.Init | src/px8/editor.rs:365-371 | every cache cell `x + 128 y` equals map cell (x, y) |
| MapTools.MapEditor.Update | src/px8/editor.rs:373-430 | pan and zoom as in `Navigate`, then the mouse handling of `PointAt` |
| MapTools.MapEditor.Navigate | src/px8/editor.rs:374-399 | each offset is the clamped pan step of its keys, and `btnp(0, 4)` advances the zoom index modulo 3 |
| MapTools.MapEditor.PanHorizontal | src/px8/editor.rs:374-382 | the column offset is the clamped pan step of Left and Right for the current zoom |
| MapTools.MapEditor.PanVertical | src/px8/editor.rs:384-392 | the row offset is the clamped pan step of Up and Down for the current zoom |
| MapTools.MapEditor.CycleZoom | src/px8/editor.rs:395-399 | the zoom index advances modulo 3, and zoom and cell size follow it |
| MapTools.MapEditor.PointAt | src/px8/editor.rs:401-429 | a mouse in the view moves the selection to its corner and cell; with the level state 1 the block there is painted into cache and map, and the update fails exactly when the block runs past the cache; cache and map are otherwise unchanged |
| MapTools.MapEditor.PaintBlock | src/px8/editor.rs:414-426 | succeeds exactly when the block fits the cache, and then every block cell of cache and map holds its sprite and no other cell changed |
| MapTools.MapEditor.PaintColumn | src/px8/editor.rs:418-424 | the rows of one block column are painted in cache and map, and it succeeds exactly when the column's lowest cell is inside the cache |
| EditorMain.WidgetBoxesAreDisjoint | src/px8/editor.rs:693-701 | no point lies in both the SPRITES and the MAP widget |
| EditorMain.NextMode | src/px8/editor.rs:748-759 | MAP selects map mode, SPRITES alone selects sprite mode, no click keeps the mode |
| EditorMain.ClickPicksMode | src/px8/editor.rs:744-759 | the mode after a click is the mode of the widget under the mouse, or the old one when neither is |
| EditorMain.Editor.constructor | src/px8/editor.rs:688-718 | all components share one fresh state and the editor starts in sprite mode |
| EditorMain.Editor.Draw | src/px8/editor.rs:732-759 | the state takes the input's mouse and its quick state, so painting and picking follow `mouse_statep`; the sprite map steps (`SelectionStepped`); only the editor of the old mode steps, and the other is left as it was (`EditorStepped`); the cache is painted or kept unless a MAP click reloads it, after which it mirrors the map; each widget is clicked exactly when the level state is 1 and the mouse is in its box; the mode follows `NextMode`; a failure happens only in map mode |
| EditorMain.Editor.UpdateComponents | src/px8/editor.rs:737-742 | the state takes the input's mouse and its quick state, the sprite map steps, then only the editor of the current mode steps, with its cache effect; only the map editor can fail |
| EditorMain.Editor.TakeInput | src/px8/editor.rs:737-738 | the state takes the input's mouse and quick state, then the sprite map steps: bank, thumbnail and atlas origin selected, flag colours shown and the hit flag toggled |
| EditorMain.Editor.UpdateActiveEditor | src/px8/editor.rs:739-742 | in sprite mode only the sprite editor steps and the map editor, map and cache stay; in map mode only the map editor steps and the palette, sprite zoom and pixels stay; the mouse is left alone |
| EditorMain.Editor.UpdateSpriteEditor | src/px8/editor.rs:740 | the sprite editor's step (painted pixel, picked swatch, zoom cycle) with the map editor, map and cache unchanged |
| EditorMain.Editor.UpdateMapEditor | src/px8/editor.rs:741 | the map editor's step (pan, zoom, selection, block painted into map and cache, failure past the cache) with the palette, sprite zoom and pixels unchanged |
| EditorMain.Editor.UpdateMode | src/px8/editor.rs:744-759 | each widget's click is the half-open test of the mouse, the mode follows `NextMode`, a MAP click reloads the cache, and the component steps already taken are kept |
| EditorMain.Editor.UpdateWidgets | src/px8/editor.rs:744-746 | after the loop each widget's click is the signed half-open test of the mouse |
| EditorMain.Editor.SwitchMode | src/px8/editor.rs:748-759 | the mode follows `NextMode`; a MAP click reloads the cache from the map, otherwise the cache is unchanged |
| Audio.InClosedBox | examples/audio/audio.py:20-21 | only a non-empty box is hit |
| Audio.Button.constructor | examples/audio/audio.py:10-17 | the box and label are stored and the button starts clicked exactly when highlighted |
| Audio.Button.Update | examples/audio/audio.py:19-21 | clicked exactly when the point lies in the box, edges included |
| Audio.Button.IsClick | examples/audio/audio.py:28-29 | reports the last update's hit test (or the highlight before any) |
| Audio.Adjusted | examples/audio/audio.py:58-70 | a volume stays in [0, 128]; a minus hit lowers it by 10 or to 0, a plus hit raises it by 10 or to 128, no hit keeps it |
| Audio.InteractiveNumber.constructor | examples/audio/audio.py:45-56 | volume 128, minus box `[x-4, y, x-2, y+2]`, plus box `[x-4, y-4, x-2, y-2]`, and no call of the volume function |
| Audio.InteractiveNumber.Update | examples/audio/audio.py:58-73 | the value is the adjusted one and stays in [0, 128]; the volume function is called once with the new value exactly when a box was hit |
| Audio.CounterBoxesAreDisjoint | examples/audio/audio.py:53-56 | the minus and plus boxes share no point |
| Audio.UpdateStepsOnce | examples/audio/audio.py:58-70 | one update applies at most one of the two steps and keeps the volume in [0, 128] |

## Left out

- All `draw` methods, and all rendering through `rectfill`, `rect`, `print`, `spr`, `sspr`, `pset` and `cls`. These are calls into the rasteriser, which is not part of this model. Only the screen's pixel, flag and map stores are kept, as maps without bounds.
- `Editor::init` (mouse toggle, screen mode, logging), `Editor::update` (which only returns true), and the frame timing that `Editor::draw` measures and returns. These are I/O and wall-clock time.
- The `Arc<Mutex<…>>` locking. The model is single-threaded and shares objects by reference.
- `Button::is_click` and `Widget::is_click` in the editor are read as the `clicked` field. `mouse_state()` and `mouse_state_quick()` are read as the mouse fields.
- The widgets' glyph data and highlight maps, which only `draw` uses.
- The float mouse timeout in `Players::update` is the boolean parameter `timedOut`, because it compares wall-clock values. The `elapsed` argument of `mouse_button_down`, which feeds that clock, is left out.
- `keys::map_keycode` is the function parameter `keycode`, because that module is not part of this model. `Scancode` and `Mod` keep only the values the input code compares, and every other value is folded into one constructor.
- Player and button indices are `u8` in the source and `int` here. Negative values are accepted and read as unknown.
- `PlayerKeys::frames`, the empty `PlayerKeys::update`, the text buffer (`clear_text`, `set_text`, `get_text`), `set_mouse_x`, `set_mouse_y` and `delta`. None of these feeds the editor.
- The `debug!`/`info!` logging, and the commented-out sprite shift code of `SpriteEditor::update`.
- Rust integer overflow and panics are not modelled, except the cache index. Arithmetic is unbounded, because mouse coordinates and sprite numbers stay far below the `i32`/`u32` limits.
- MapTools.MapEditor.PaintBlock: when the block runs past the cache, the state left behind is not described. The Rust program panics at that point.
- In audio.py, the `Text` widget, `_init`, `_draw`, the `_update` dispatch that starts and stops music, and the `CHIPTUNE_MENU` table are left out. These are calls into the sound engine. The `volume_fct` callback is modelled as the list of values it was called with.
- `examples/collision/collision.py` only calls an outside physics library.
