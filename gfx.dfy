/**
 * The parts of the console's screen that the editor writes to, reduced to an
 * abstract store: sprite-sheet pixels (`sset`), per-sprite flag bits
 * (`fget`/`fset`) and map cells (`mget`/`mset`). Rasterising is not modelled.
 * An entry that was never written reads as 0 (or false).
 */
module Gfx {

  function CellOf(cells: map<(int, int), int>, x: int, y: int): int {
    if (x, y) in cells then cells[(x, y)] else 0
  }

  function FlagOf(flags: map<(int, int), bool>, sprite: int, flag: int): bool {
    if (sprite, flag) in flags then flags[(sprite, flag)] else false
  }

  class Screen {
    var pixels: map<(int, int), int>
    var spriteFlags: map<(int, int), bool>
    var cells: map<(int, int), int>

    constructor (pixels: map<(int, int), int>, spriteFlags: map<(int, int), bool>, cells: map<(int, int), int>)
      ensures this.pixels == pixels && this.spriteFlags == spriteFlags && this.cells == cells
    {
      this.pixels := pixels;
      this.spriteFlags := spriteFlags;
      this.cells := cells;
    }

    method SSet(x: int, y: int, color: int)
      modifies this`pixels
      ensures pixels == old(pixels)[(x, y) := color]
    {
      pixels := pixels[(x, y) := color];
    }

    function FGet(sprite: int, flag: int): bool
      reads this`spriteFlags
    {
      FlagOf(spriteFlags, sprite, flag)
    }

    method FSet(sprite: int, flag: int, value: bool)
      modifies this`spriteFlags
      ensures spriteFlags == old(spriteFlags)[(sprite, flag) := value]
    {
      spriteFlags := spriteFlags[(sprite, flag) := value];
    }

    function MGet(x: int, y: int): int
      reads this`cells
    {
      CellOf(cells, x, y)
    }

    method MSet(x: int, y: int, sprite: int)
      modifies this`cells
      ensures cells == old(cells)[(x, y) := sprite]
    {
      cells := cells[(x, y) := sprite];
    }
  }
}
