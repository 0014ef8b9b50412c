/**
 * Input bookkeeping of the console (unicorn/src/config/mod.rs): the mouse's
 * level and one-frame ("quick") state, the keys held down by scancode, and
 * per-player console keys behind `btn`/`btnp`.
 */
module Config {
  import opened Ints

  /** The console keys a player has. */
  datatype PX8Key = Left | Right | Up | Down | A | B | Enter | Pause

  /** The scancodes the input code tells apart; every other key is `OtherScancode`. */
  datatype Scancode = C | V | X | Copy | Paste | Cut | OtherScancode(code: int)

  /** Keyboard modifier states compared by the input code; any other state is `OtherMod`. */
  datatype Mod = LCtrlMod | RCtrlMod | LGuiMod | RGuiMod | OtherMod(bits: int)

  datatype Option<T> = None | Some(value: T)

  /** What the keyboard layout maps a scancode to: maybe a console key, and the player owning it. */
  datatype KeyBinding = KeyBinding(key: Option<PX8Key>, player: int)

  const AllKeys: set<PX8Key> := {Left, Right, Up, Down, A, B, Enter, Pause}

  /** One player's key maps: held keys, and keys pressed since the last frame. */
  datatype PlayerKeys = PlayerKeys(keys: map<PX8Key, bool>, keysQuick: map<PX8Key, bool>) {
    /** Both maps hold an entry for every console key (they are built that way and never shrink). */
    predicate Valid() {
      keys.Keys == AllKeys && keysQuick.Keys == AllKeys
    }
  }

  lemma EveryKeyIsListed()
    ensures forall k: PX8Key :: k in AllKeys
  {
    forall k: PX8Key ensures k in AllKeys {
      match k
      case Left =>
      case Right =>
      case Up =>
      case Down =>
      case A =>
      case B =>
      case Enter =>
      case Pause =>
    }
  }

  /** `PlayerKeys::new`: every console key present and released in both maps. */
  function NewPlayerKeys(): (pk: PlayerKeys)
    ensures pk.Valid()
    ensures forall k :: k in pk.keys && !pk.keys[k]
    ensures forall k :: k in pk.keysQuick && !pk.keysQuick[k]
  {
    EveryKeyIsListed();
    var keys := map[Right := false, Left := false, Up := false, Down := false,
                    A := false, B := false, Pause := false, Enter := false];
    var keysQuick := map[Right := false, Left := false, Up := false, Down := false,
                         A := false, B := false, Pause := false, Enter := false];
    PlayerKeys(keys, keysQuick)
  }

  /** The console key read by `btn`/`btnp` button index `index`. */
  function ButtonKey(index: int): PX8Key
    requires 0 <= index < 8
  {
    match index
    case 0 => Left
    case 1 => Right
    case 2 => Up
    case 3 => Down
    case 4 => A
    case 5 => B
    case 6 => Enter
    case _ => Pause
  }

  /** The button index under which a console key is read: the inverse of `ButtonKey`. */
  function ButtonIndex(key: PX8Key): (index: int)
    ensures 0 <= index < 8 && ButtonKey(index) == key
  {
    match key
    case Left => 0
    case Right => 1
    case Up => 2
    case Down => 3
    case A => 4
    case B => 5
    case Enter => 6
    case Pause => 7
  }

  /** Button indices and console keys correspond one to one. */
  lemma ButtonKeyIsBijective(index: int, other: int)
    requires 0 <= index < 8 && 0 <= other < 8
    ensures ButtonIndex(ButtonKey(index)) == index
    ensures ButtonKey(index) == ButtonKey(other) ==> index == other
  {
  }

  /** Left/Right Ctrl or GUI held alone: the modifiers that turn C, V, X into editing commands. */
  predicate IsCommandMod(keymod: Mod) {
    keymod == LCtrlMod || keymod == RCtrlMod || keymod == LGuiMod || keymod == RGuiMod
  }

  /** The scancode `key_down`/`key_up` record once Ctrl/GUI shortcuts are translated. */
  function Remap(keymod: Mod, scancode: Scancode): (sc: Scancode)
    ensures sc != scancode <==> IsCommandMod(keymod) && scancode in {C, V, X}
    ensures sc != scancode ==> sc in {Copy, Paste, Cut}
  {
    if IsCommandMod(keymod) then
      if scancode == C then Copy
      else if scancode == V then Paste
      else if scancode == X then Cut
      else scancode
    else scancode
  }

  /** One key of one player's maps set to `down` in both the held and the quick map. */
  function WithKey(pk: PlayerKeys, key: PX8Key, down: bool): PlayerKeys {
    PlayerKeys(pk.keys[key := down], pk.keysQuick[key := down])
  }

  /** The per-player maps after a direct key event; an unknown player changes nothing. */
  function WithPlayerKey(pkeys: map<int, PlayerKeys>, player: int, key: PX8Key, down: bool): map<int, PlayerKeys> {
    if player in pkeys then pkeys[player := WithKey(pkeys[player], key, down)] else pkeys
  }

  /** A player's maps with both keys of one axis released in the held map only. */
  function ReleaseAxis(pkeys: map<int, PlayerKeys>, player: int, k1: PX8Key, k2: PX8Key): map<int, PlayerKeys> {
    if player in pkeys then
      var pk := pkeys[player];
      pkeys[player := pk.(keys := pk.keys[k1 := false][k2 := false])]
    else pkeys
  }

  /** `after` is `before` with its quick map switched off entry by entry and its held keys kept. */
  predicate QuickCleared(after: PlayerKeys, before: PlayerKeys) {
    && after.keys == before.keys
    && after.keysQuick.Keys == before.keysQuick.Keys
    && forall k :: k in after.keysQuick ==> !after.keysQuick[k]
  }

  /** The loop body of `Players::update` over one quick-key map: every entry ends false, none is added or removed. */
  method ClearAll<K>(m: map<K, bool>) returns (r: map<K, bool>)
    ensures r.Keys == m.Keys
    ensures forall k :: k in r ==> !r[k]
  {
    r := m;
    var todo := m.Keys;
    while todo != {}
      invariant todo <= m.Keys
      invariant r.Keys == m.Keys
      invariant forall k :: k in r ==> r[k] == (k in todo && m[k])
      decreases todo
    {
      var k :| k in todo;
      if r[k] {
        r := r[k := false];
      }
      todo := todo - {k};
    }
  }

  /** Some member of a non-empty set: the next entry a map iteration visits. */
  method Pick<T>(s: set<T>) returns (x: T)
    requires s != {}
    ensures x in s
  {
    x :| x in s;
  }

  /** The loop of `Players::update` over the players: each one's quick map switched off, held keys kept. */
  method ClearAllPlayers(pkeys: map<int, PlayerKeys>) returns (r: map<int, PlayerKeys>)
    ensures r.Keys == pkeys.Keys
    ensures forall p :: p in r ==> QuickCleared(r[p], pkeys[p])
  {
    r := pkeys;
    var todo := pkeys.Keys;
    while todo != {}
      invariant todo <= r.Keys == pkeys.Keys
      invariant forall p :: p in r ==> if p in todo then r[p] == pkeys[p] else QuickCleared(r[p], pkeys[p])
      decreases todo
    {
      var player := Pick(todo);
      var pk := r[player];
      var quick := ClearAll(pk.keysQuick);
      r := r[player := pk.(keysQuick := quick)];
      todo := todo - {player};
    }
  }

  class Players {
    var mouseX: i32
    var mouseY: i32
    var mouseState: nat
    var mouseStateQuick: nat

    /** Console keys per player, as cartridges read them. */
    var pkeys: map<int, PlayerKeys>
    /** Keys held down, by scancode. */
    var akeys: map<Scancode, bool>
    /** Keys pressed during the current frame only, by scancode. */
    var akeysQuick: map<Scancode, bool>

    ghost predicate Valid()
      reads this`pkeys
    {
      forall p :: p in pkeys ==> pkeys[p].Valid()
    }

    /** `Players::new`: two players with every key released, no scancode seen, mouse at rest at (0, 0). */
    constructor ()
      ensures Valid()
      ensures pkeys == map[0 := NewPlayerKeys(), 1 := NewPlayerKeys()]
      ensures akeys == map[] && akeysQuick == map[]
      ensures mouseX == 0 && mouseY == 0 && mouseState == 0 && mouseStateQuick == 0
      ensures forall player, index :: !Btn(player, index) && !Btnp(player, index)
    {
      mouseX, mouseY := 0, 0;
      mouseState, mouseStateQuick := 0, 0;
      pkeys := map[0 := NewPlayerKeys(), 1 := NewPlayerKeys()];
      akeys := map[];
      akeysQuick := map[];
    }

    method MouseButtonDown(left: bool, right: bool, middle: bool)
      modifies this`mouseState, this`mouseStateQuick
      ensures mouseState == (if left then 1 else if right then 2 else if middle then 4 else 0)
      ensures mouseStateQuick == mouseState
    {
      mouseState := 0;
      if left {
        mouseState := 1;
      } else if right {
        mouseState := 2;
      } else if middle {
        mouseState := 4;
      }
      mouseStateQuick := mouseState;
    }

    method MouseButtonUp()
      modifies this`mouseState, this`mouseStateQuick
      ensures mouseState == 0 && mouseStateQuick == 0
    {
      mouseState := 0;
      mouseStateQuick := 0;
    }

    /**
     * Start of a frame: the mouse level state drops once its hold has timed
     * out (`timedOut` stands for the clock comparison), and every quick entry
     * is switched off. Held keys and the mouse's quick state are left alone.
     */
    method Update(timedOut: bool)
      requires Valid()
      modifies this`mouseState, this`akeysQuick, this`pkeys
      ensures Valid()
      ensures mouseState == if timedOut then 0 else old(mouseState)
      ensures akeysQuick.Keys == old(akeysQuick).Keys
      ensures forall sc :: sc in akeysQuick ==> !akeysQuick[sc]
      ensures pkeys.Keys == old(pkeys).Keys
      ensures forall p :: p in pkeys ==> QuickCleared(pkeys[p], old(pkeys)[p])
      ensures forall p, index :: !Btnp(p, index)
    {
      if timedOut {
        mouseState := 0;
      }
      akeysQuick := ClearAll(akeysQuick);
      pkeys := ClearAllPlayers(pkeys);
      forall p, index ensures !Btnp(p, index) {
        if p in pkeys && 0 <= index < 8 {
          assert pkeys[p].keysQuick[ButtonKey(index)] == false;
        }
      }
    }

    method KeyDown(keymod: Mod, scancode: Scancode, keycode: Scancode -> KeyBinding)
      requires Valid()
      modifies this`akeys, this`akeysQuick, this`pkeys
      ensures Valid()
      ensures akeys == old(akeys)[Remap(keymod, scancode) := true]
      ensures akeysQuick == old(akeysQuick)[Remap(keymod, scancode) := true]
      ensures var b := keycode(Remap(keymod, scancode));
        pkeys == if b.key.Some? then WithPlayerKey(old(pkeys), b.player, b.key.value, true) else old(pkeys)
      ensures BtnRaw(Remap(keymod, scancode)) && BtnpRaw(Remap(keymod, scancode))
    {
      var sc := Remap(keymod, scancode);
      akeys := akeys[sc := true];
      akeysQuick := akeysQuick[sc := true];
      var binding := keycode(sc);
      if binding.key.Some? {
        KeyDownDirect(binding.player, binding.key.value);
      }
    }

    method KeyDownDirect(player: int, key: PX8Key)
      requires Valid()
      modifies this`pkeys
      ensures Valid()
      ensures pkeys == WithPlayerKey(old(pkeys), player, key, true)
      ensures player in pkeys ==> Btn(player, ButtonIndex(key)) && Btnp(player, ButtonIndex(key))
    {
      if player in pkeys {
        var pk := pkeys[player];
        pk := pk.(keys := pk.keys[key := true]);
        pk := pk.(keysQuick := pk.keysQuick[key := true]);
        pkeys := pkeys[player := pk];
      }
    }

    method KeyDirecHorUp(player: int)
      requires Valid()
      modifies this`pkeys
      ensures Valid()
      ensures pkeys == ReleaseAxis(old(pkeys), player, Right, Left)
      ensures pkeys.Keys == old(pkeys).Keys
      ensures forall p :: p in pkeys ==> pkeys[p].keysQuick == old(pkeys)[p].keysQuick
      ensures player in pkeys ==> !Btn(player, 0) && !Btn(player, 1)
    {
      if player in pkeys {
        var pk := pkeys[player];
        pk := pk.(keys := pk.keys[Right := false]);
        pk := pk.(keys := pk.keys[Left := false]);
        pkeys := pkeys[player := pk];
      }
    }

    method KeyDirecVerUp(player: int)
      requires Valid()
      modifies this`pkeys
      ensures Valid()
      ensures pkeys == ReleaseAxis(old(pkeys), player, Up, Down)
      ensures pkeys.Keys == old(pkeys).Keys
      ensures forall p :: p in pkeys ==> pkeys[p].keysQuick == old(pkeys)[p].keysQuick
      ensures player in pkeys ==> !Btn(player, 2) && !Btn(player, 3)
    {
      if player in pkeys {
        var pk := pkeys[player];
        pk := pk.(keys := pk.keys[Up := false]);
        pk := pk.(keys := pk.keys[Down := false]);
        pkeys := pkeys[player := pk];
      }
    }

    method KeyUp(keymod: Mod, scancode: Scancode, keycode: Scancode -> KeyBinding)
      requires Valid()
      modifies this`akeys, this`akeysQuick, this`pkeys
      ensures Valid()
      ensures akeys == old(akeys)[Remap(keymod, scancode) := false]
      ensures akeysQuick == old(akeysQuick)[Remap(keymod, scancode) := false]
      ensures var b := keycode(Remap(keymod, scancode));
        pkeys == if b.key.Some? then WithPlayerKey(old(pkeys), b.player, b.key.value, false) else old(pkeys)
      ensures !BtnRaw(Remap(keymod, scancode)) && !BtnpRaw(Remap(keymod, scancode))
    {
      var sc := Remap(keymod, scancode);
      akeys := akeys[sc := false];
      akeysQuick := akeysQuick[sc := false];
      var binding := keycode(sc);
      if binding.key.Some? {
        KeyUpDirect(binding.player, binding.key.value);
      }
    }

    method KeyUpDirect(player: int, key: PX8Key)
      requires Valid()
      modifies this`pkeys
      ensures Valid()
      ensures pkeys == WithPlayerKey(old(pkeys), player, key, false)
      ensures player in pkeys ==> !Btn(player, ButtonIndex(key)) && !Btnp(player, ButtonIndex(key))
    {
      if player in pkeys {
        var pk := pkeys[player];
        pk := pk.(keys := pk.keys[key := false]);
        pk := pk.(keysQuick := pk.keysQuick[key := false]);
        pkeys := pkeys[player := pk];
      }
    }

    /** Whether button `index` of `player` is held; unknown players and indices read as released. */
    function GetValue(player: int, index: int): (r: bool)
      reads this`pkeys
      requires Valid()
      ensures r <==> player in pkeys && 0 <= index < 8 && pkeys[player].keys[ButtonKey(index)]
    {
      if player in pkeys then
        var keys := pkeys[player].keys;
        match index
        case 0 => keys[Left]
        case 1 => keys[Right]
        case 2 => keys[Up]
        case 3 => keys[Down]
        case 4 => keys[A]
        case 5 => keys[B]
        case 6 => keys[Enter]
        case 7 => keys[Pause]
        case _ => false
      else false
    }

    /** Whether button `index` of `player` was pressed this frame; unknown players and indices read as not pressed. */
    function GetValueQuick(player: int, index: int): (r: bool)
      reads this`pkeys
      requires Valid()
      ensures r <==> player in pkeys && 0 <= index < 8 && pkeys[player].keysQuick[ButtonKey(index)]
    {
      if player in pkeys then
        var keys := pkeys[player].keysQuick;
        match index
        case 0 => keys[Left]
        case 1 => keys[Right]
        case 2 => keys[Up]
        case 3 => keys[Down]
        case 4 => keys[A]
        case 5 => keys[B]
        case 6 => keys[Enter]
        case 7 => keys[Pause]
        case _ => false
      else false
    }

    /** `btn`: the held state of a console button, read through `get_value`. */
    function Btn(player: int, index: int): (r: bool)
      reads this`pkeys
      requires Valid()
      ensures r <==> player in pkeys && 0 <= index < 8 && pkeys[player].keys[ButtonKey(index)]
      ensures r == GetValue(player, index)
    {
      GetValue(player, index)
    }

    /** `btnp`: whether a console button was pressed this frame, read through `get_value_quick`. */
    function Btnp(player: int, index: int): (r: bool)
      reads this`pkeys
      requires Valid()
      ensures r <==> player in pkeys && 0 <= index < 8 && pkeys[player].keysQuick[ButtonKey(index)]
      ensures r == GetValueQuick(player, index)
    {
      GetValueQuick(player, index)
    }

    function BtnRaw(scancode: Scancode): (r: bool)
      reads this`akeys
      ensures r <==> scancode in akeys && akeys[scancode]
    {
      if scancode in akeys then akeys[scancode] else false
    }

    function BtnpRaw(scancode: Scancode): (r: bool)
      reads this`akeysQuick
      ensures r <==> scancode in akeysQuick && akeysQuick[scancode]
    {
      if scancode in akeysQuick then akeysQuick[scancode] else false
    }

    function MouseCoordinate(index: int): (r: i32)
      reads this`mouseX, this`mouseY
      ensures index == 0 ==> r == mouseX
      ensures index == 1 ==> r == mouseY
      ensures index != 0 && index != 1 ==> r == 0
    {
      match index
      case 0 => mouseX
      case 1 => mouseY
      case _ => 0
    }
  }
}
