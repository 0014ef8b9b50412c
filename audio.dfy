/**
 * The widgets of the chiptune cartridge: a push button with a closed hit box,
 * and a volume counter stepped by ten within [0, 128] by two small boxes.
 * The volume callback is recorded as the list of values it was called with.
 */
module Audio {
  import opened Ints

  /** Python's chained test `x1 <= x <= x2 and y1 <= y <= y2` on a box [x1, y1, x2, y2]. */
  function InClosedBox(x: int, y: int, box: seq<int>): (r: bool)
    requires |box| == 4
    ensures r ==> box[0] <= box[2] && box[1] <= box[3]
  {
    box[0] <= x <= box[2] && box[1] <= y <= box[3]
  }

  class Button {
    const x1: int
    const y1: int
    const x2: int
    const y2: int
    const color: int
    const text: string
    var clicked: bool

    /** `Button.__init__`: a highlighted button starts out clicked. */
    constructor (x1: int, y1: int, x2: int, y2: int, color: int, text: string, highlight: bool)
      ensures this.x1 == x1 && this.y1 == y1 && this.x2 == x2 && this.y2 == y2
      ensures this.color == color && this.text == text
      ensures clicked == highlight
    {
      this.x1, this.y1, this.x2, this.y2 := x1, y1, x2, y2;
      this.color, this.text := color, text;
      clicked := if highlight then true else false;
    }

    /** `Button.update`: clicked exactly when (x, y) is in the box, edges included. */
    method Update(x: int, y: int)
      modifies this`clicked
      ensures clicked <==> InClosedBox(x, y, [x1, y1, x2, y2])
    {
      clicked := (x1 <= x <= x2 && y1 <= y <= y2);
    }

    /** `Button.is_click`: the outcome of the last hit test (or the highlight, before any). */
    function IsClick(): (r: bool)
      reads this`clicked
      ensures r == clicked
    {
      clicked
    }
  }

  /** Lowest and highest volume. */
  const MinVolume := 0
  const MaxVolume := 128

  /**
   * The value after one update: minus ten (not below 0) on a minus hit, then
   * plus ten (not above 128) on a plus hit.
   */
  function Adjusted(value: int, minusHit: bool, plusHit: bool): (r: int)
    ensures MinVolume <= value <= MaxVolume ==> MinVolume <= r <= MaxVolume
    ensures !minusHit && !plusHit ==> r == value
    ensures minusHit && !plusHit && value >= 10 ==> r == value - 10
    ensures minusHit && !plusHit && value < 10 ==> r == MinVolume
    ensures plusHit && !minusHit && value <= 118 ==> r == value + 10
    ensures plusHit && !minusHit && value > 118 ==> r == MaxVolume
  {
    var afterMinus := if minusHit then Max(MinVolume, value - 10) else value;
    if plusHit then Min(MaxVolume, afterMinus + 10) else afterMinus
  }

  class InteractiveNumber {
    const x: int
    const y: int
    const color: int
    var value: int
    const text: string
    const rectMinus: seq<int>
    const rectPlus: seq<int>
    /** The values `volume_fct` has been called with, oldest first. */
    var volumeCalls: seq<int>

    /** The boxes sit left of (x, y), minus below plus, and the value is a volume. */
    ghost predicate Valid()
      reads this`value
    {
      rectMinus == [x - 4, y, x - 2, y + 2] && rectPlus == [x - 4, y - 4, x - 2, y - 2] &&
      MinVolume <= value <= MaxVolume
    }

    /** `InteractiveNumber.__init__`: full volume, no callback yet. */
    constructor (x: int, y: int, color: int)
      ensures Valid() && this.x == x && this.y == y && this.color == color
      ensures value == 128 && volumeCalls == []
      ensures rectMinus == [x - 4, y, x - 2, y + 2] && rectPlus == [x - 4, y - 4, x - 2, y - 2]
    {
      this.x, this.y, this.color := x, y, color;
      value := 128;
      text := "Unknown";
      var baseX := x - 4;
      var baseY := y - 4;
      rectMinus := [baseX, y, baseX + 2, y + 2];
      rectPlus := [baseX, baseY, baseX + 2, baseY + 2];
      volumeCalls := [];
    }

    /**
     * `InteractiveNumber.update`: step the value by the box under (px, py),
     * and call the volume function once with the new value when a box was hit.
     */
    method Update(px: int, py: int)
      requires Valid()
      modifies this`value, this`volumeCalls
      ensures Valid()
      ensures value == Adjusted(old(value), InClosedBox(px, py, rectMinus), InClosedBox(px, py, rectPlus))
      ensures volumeCalls == if InClosedBox(px, py, rectMinus) || InClosedBox(px, py, rectPlus)
                             then old(volumeCalls) + [value] else old(volumeCalls)
    {
      var rectMinClicked := rectMinus[0] <= px <= rectMinus[2] && rectMinus[1] <= py <= rectMinus[3];
      if rectMinClicked {
        value := value - 10;
        value := Max(0, value);
      }

      var rectPlusClicked := rectPlus[0] <= px <= rectPlus[2] && rectPlus[1] <= py <= rectPlus[3];
      if rectPlusClicked {
        value := value + 10;
        value := Min(128, value);
      }

      if rectMinClicked || rectPlusClicked {
        volumeCalls := volumeCalls + [value];
      }
    }
  }

  /** The minus box (rows y..y+2) and the plus box (rows y-4..y-2) never share a point. */
  lemma CounterBoxesAreDisjoint(x: int, y: int, px: int, py: int)
    ensures !(InClosedBox(px, py, [x - 4, y, x - 2, y + 2]) && InClosedBox(px, py, [x - 4, y - 4, x - 2, y - 2]))
  {
  }

  /**
   * So each update applies at most one step: the value moves by exactly ten,
   * or to a bound, or not at all, and stays a volume.
   */
  lemma {:induction false} UpdateStepsOnce(x: int, y: int, value: int, px: int, py: int)
    requires MinVolume <= value <= MaxVolume
    ensures var minus := InClosedBox(px, py, [x - 4, y, x - 2, y + 2]);
      var plus := InClosedBox(px, py, [x - 4, y - 4, x - 2, y - 2]);
      var r := Adjusted(value, minus, plus);
      MinVolume <= r <= MaxVolume &&
      (minus ==> r == Max(MinVolume, value - 10)) &&
      (plus ==> r == Min(MaxVolume, value + 10)) &&
      (!minus && !plus ==> r == value)
  {
    CounterBoxesAreDisjoint(x, y, px, py);
  }
}
