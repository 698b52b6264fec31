/** The key registrations the board makes in its keyboard matrix: which
    matrix cell, and with which modifier, each host key code presses. */
module Keyboard {
  /** A matrix cell of the 8x8 keyboard matrix. */
  datatype Cell = Cell(column: nat, line: nat)

  /** Where a key code lands: its matrix cell and the modifier mask that is
      pressed with it (bit 0 is shift). */
  datatype KeyPos = KeyPos(column: nat, line: nat, modMask: nat)

  /** The registrations: key code to key position, and modifier layer to the
      cell of its modifier key. */
  datatype KeyMap = KeyMap(keys: map<int, KeyPos>, modifiers: map<int, Cell>)

  /** The two-layer key map, eight columns to a line, first the unshifted
      layer then the shifted one; a space marks a cell with no character,
      and '~' stands for the British pound sign. */
  const KEYMAP: string :=
    // unshifted
    "1     Q2" + "3WA ZSE4" + "5RDXCFT6" + "7YGVBHU8" +
    "9IJNMKO0" + "+PL,.:@-" + "~*;/ =  " + "        " +
    // shifted
    "!     q\"" + "#wa zse$" + "%rdxcft^" + "&ygvbhu*" +
    "(ijnmko)" + " pl<>[  " + "$ ]?    " + "        "

  /** The modifier layers: shift is column 3, line 1; ctrl is column 2, line 0. */
  const SHIFT_CELL := Cell(3, 1)
  const CTRL_CELL := Cell(2, 0)

  /** The named keys outside the character map, each with its cell and
      modifier: space, cursor left/right/down/up, delete, return, stop, and
      the function keys F1-F8 (even ones shifted). */
  const SPECIAL_KEYS: map<int, KeyPos> := map[
    0x20 := KeyPos(4, 0, 0),
    0x08 := KeyPos(2, 7, 1),
    0x09 := KeyPos(2, 7, 0),
    0x0A := KeyPos(3, 7, 0),
    0x0B := KeyPos(3, 7, 1),
    0x01 := KeyPos(0, 7, 0),
    0x0D := KeyPos(1, 7, 0),
    0x03 := KeyPos(3, 0, 0),
    0xF1 := KeyPos(4, 7, 0),
    0xF2 := KeyPos(4, 7, 1),
    0xF3 := KeyPos(5, 7, 0),
    0xF4 := KeyPos(5, 7, 1),
    0xF5 := KeyPos(6, 7, 0),
    0xF6 := KeyPos(6, 7, 1),
    0xF7 := KeyPos(7, 7, 0),
    0xF8 := KeyPos(7, 7, 1)]

  /** A cell of the key map, with its layer in the modifier mask. */
  predicate Placed(p: KeyPos)
  {
    p.modMask < 2 && p.column < 8 && p.line < 8
  }

  /** The character of a key map at a cell. */
  function KeyAt(keymap: string, p: KeyPos): char
    requires |keymap| == 128 && Placed(p)
  {
    keymap[p.modMask * 64 + p.line * 8 + p.column]
  }

  /** The place of a cell in the scan order: layer, then column, then line. */
  function Order(p: KeyPos): int
  {
    p.modMask * 64 + p.column * 8 + p.line
  }

  /** The registrations a scan has made once it has visited the first `n`
      cells: every registered code is the character of a visited cell, and
      every non-blank visited character is registered at its latest cell. */
  ghost predicate ScannedUpTo(keymap: string, keys: map<int, KeyPos>, n: int)
    requires |keymap| == 128
  {
    && (forall code :: code in keys ==>
          Placed(keys[code]) && Order(keys[code]) < n &&
          KeyAt(keymap, keys[code]) != ' ' && KeyAt(keymap, keys[code]) as int == code)
    && (forall q :: Placed(q) && Order(q) < n && KeyAt(keymap, q) != ' ' ==>
          KeyAt(keymap, q) as int in keys && Order(q) <= Order(keys[KeyAt(keymap, q) as int]))
  }

  /** What the board registers: the modifiers; the named keys; and every
      other code at the last cell of the key map holding it, and only there. */
  ghost predicate KeyMapSpec(km: KeyMap)
  {
    && km.modifiers == map[0 := SHIFT_CELL, 1 := CTRL_CELL]
    && (forall code :: code in SPECIAL_KEYS ==> code in km.keys && km.keys[code] == SPECIAL_KEYS[code])
    && (forall code :: code in km.keys && code !in SPECIAL_KEYS ==>
          Placed(km.keys[code]) && KeyAt(KEYMAP, km.keys[code]) != ' ' &&
          KeyAt(KEYMAP, km.keys[code]) as int == code)
    && (forall q :: Placed(q) && KeyAt(KEYMAP, q) != ' ' && KeyAt(KEYMAP, q) as int !in SPECIAL_KEYS ==>
          KeyAt(KEYMAP, q) as int in km.keys && Order(q) <= Order(km.keys[KeyAt(KEYMAP, q) as int]))
  }

  /** Two cells with the same place in the scan order are the same cell. */
  lemma OrderIsInjective(p: KeyPos, q: KeyPos)
    requires Placed(p) && Placed(q) && Order(p) == Order(q)
    ensures p == q
  {
  }

  /** Visiting one more cell keeps the registrations those of the cells
      visited so far. */
  lemma ScanStep(keymap: string, keys: map<int, KeyPos>, p: KeyPos)
    requires |keymap| == 128 && Placed(p) && ScannedUpTo(keymap, keys, Order(p))
    ensures var c := KeyAt(keymap, p);
            ScannedUpTo(keymap, if c != ' ' then keys[c as int := p] else keys, Order(p) + 1)
  {
    forall q | Placed(q) && Order(q) == Order(p)
      ensures q == p
    {
      OrderIsInjective(q, p);
    }
  }

  /** Scans one column of one layer, line by line, registering every
      non-blank cell's character at that cell. */
  method ScanColumn(keymap: string, keys0: map<int, KeyPos>, shift: nat, column: nat) returns (keys: map<int, KeyPos>)
    requires |keymap| == 128 && shift < 2 && column < 8
    requires ScannedUpTo(keymap, keys0, shift * 64 + column * 8)
    ensures ScannedUpTo(keymap, keys, shift * 64 + column * 8 + 8)
  {
    keys := keys0;
    for line := 0 to 8
      invariant ScannedUpTo(keymap, keys, shift * 64 + column * 8 + line)
    {
      // the layer is the modifier mask: shift for the second layer
      var p := KeyPos(column, line, shift);
      ScanStep(keymap, keys, p);
      var c := KeyAt(keymap, p);
      if c != ' ' {
        keys := keys[c as int := p];
      }
    }
  }

  /** Scans both layers of a key map column by column, line by line,
      registering every non-blank cell's character at that cell; a later
      cell of the same character replaces an earlier one. */
  method ScanKeyMap(keymap: string) returns (keys: map<int, KeyPos>)
    requires |keymap| == 128
    ensures ScannedUpTo(keymap, keys, 128)
  {
    keys := map[];
    for shift := 0 to 2
      invariant ScannedUpTo(keymap, keys, shift * 64)
    {
      for column := 0 to 8
        invariant ScannedUpTo(keymap, keys, shift * 64 + column * 8)
      {
        keys := ScanColumn(keymap, keys, shift, column);
      }
    }
  }

  lemma KeymapSize()
    ensures |KEYMAP| == 128
  {
  }

  /** A full scan of the key map with the named keys laid over it is the
      board's registration. */
  lemma ScanWithSpecials(scanned: map<int, KeyPos>)
    requires |KEYMAP| == 128 && ScannedUpTo(KEYMAP, scanned, 128)
    ensures KeyMapSpec(KeyMap(scanned + SPECIAL_KEYS, map[0 := SHIFT_CELL, 1 := CTRL_CELL]))
  {
  }

  /** Builds the board's key registrations: the two modifiers, the scan of
      the key map, then the named keys, which win over the scan. */
  method InitKeyMap() returns (km: KeyMap)
    ensures KeyMapSpec(km)
  {
    var modifiers := map[0 := SHIFT_CELL];
    modifiers := modifiers[1 := CTRL_CELL];
    KeymapSize();
    var keys := ScanKeyMap(KEYMAP);
    ghost var scanned := keys;
    keys := keys[0x20 := KeyPos(4, 0, 0)];  // space
    keys := keys[0x08 := KeyPos(2, 7, 1)];  // cursor left
    keys := keys[0x09 := KeyPos(2, 7, 0)];  // cursor right
    keys := keys[0x0A := KeyPos(3, 7, 0)];  // cursor down
    keys := keys[0x0B := KeyPos(3, 7, 1)];  // cursor up
    keys := keys[0x01 := KeyPos(0, 7, 0)];  // delete
    keys := keys[0x0D := KeyPos(1, 7, 0)];  // return
    keys := keys[0x03 := KeyPos(3, 0, 0)];  // stop
    keys := keys[0xF1 := KeyPos(4, 7, 0)];
    keys := keys[0xF2 := KeyPos(4, 7, 1)];
    keys := keys[0xF3 := KeyPos(5, 7, 0)];
    keys := keys[0xF4 := KeyPos(5, 7, 1)];
    keys := keys[0xF5 := KeyPos(6, 7, 0)];
    keys := keys[0xF6 := KeyPos(6, 7, 1)];
    keys := keys[0xF7 := KeyPos(7, 7, 0)];
    keys := keys[0xF8 := KeyPos(7, 7, 1)];
    assert keys == scanned + SPECIAL_KEYS;
    ScanWithSpecials(scanned);
    km := KeyMap(keys, modifiers);
  }

  /** Characters that appear on two cells are registered at the one scanned
      last: '$' (on the shifted 4 and on a shifted key of line 6) lands on
      column 7, line 1 of the shifted layer. */
  lemma DollarTakesLastCell(km: KeyMap)
    requires KeyMapSpec(km)
    ensures '$' as int in km.keys && km.keys['$' as int] == KeyPos(7, 1, 1)
  {
    KeymapSize();
    assert KeyAt(KEYMAP, KeyPos(7, 1, 1)) == '$';
    var r := km.keys['$' as int];
    assert r.modMask == 1 && r.column == 7;
    assert r.line != 2 && r.line != 3 && r.line != 4 && r.line != 5 && r.line != 6 && r.line != 7;
  }

  /** '*' (unshifted on line 6, shifted on the 8 key) lands on column 7,
      line 3 of the shifted layer. */
  lemma StarTakesLastCell(km: KeyMap)
    requires KeyMapSpec(km)
    ensures '*' as int in km.keys && km.keys['*' as int] == KeyPos(7, 3, 1)
  {
    KeymapSize();
    assert KeyAt(KEYMAP, KeyPos(7, 3, 1)) == '*';
    var r := km.keys['*' as int];
    assert r.modMask == 1 && r.column == 7;
    assert r.line != 4 && r.line != 5 && r.line != 6 && r.line != 7;
  }
}
