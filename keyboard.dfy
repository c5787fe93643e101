/** The input vocabulary of src/keyboard/mod.rs: the game's actions, the
    tables that describe and bind them, and the four lookups over those
    tables.  Every lookup scans its whole table without stopping, so the last
    matching row decides. */
module Keyboard {
  import opened Wrappers
  import Macroquad

  type KeyCode = Macroquad.KeyCode

  datatype GameAction = Up | Down | Mute | PauseResume | Quit | None

  /** `GAME_ACTION`: the description shown for each action. */
  const GameActionTable: seq<(GameAction, string)> := [
    (Up, "Go Up: "),
    (Down, "Go Down: "),
    (Mute, "Mute: "),
    (PauseResume, "Pause and resume: "),
    (Quit, "Quit: ")
  ]

  /** `KEY_GAME` of src/config.rs, read as the key bound to each action. */
  const KeyGameTable: seq<(KeyCode, GameAction)> := [
    (Macroquad.Z, Up),
    (Macroquad.S, Down),
    (Macroquad.Space, PauseResume),
    (Macroquad.Escape, Quit),
    (Macroquad.M, Mute)
  ]

  /** `KEY_CODE_WITH_STRING`: the printable name of each key. */
  const KeyCodeWithString: seq<(KeyCode, string)> := [
    (Macroquad.Space, "Space"),
    (Macroquad.Apostrophe, "Apostrophe"),
    (Macroquad.Comma, "Comma"),
    (Macroquad.Minus, "Minus"),
    (Macroquad.Period, "Period"),
    (Macroquad.Slash, "Slash"),
    (Macroquad.Key0, "Key0"),
    (Macroquad.Key1, "Key1"),
    (Macroquad.Key2, "Key2"),
    (Macroquad.Key3, "Key3"),
    (Macroquad.Key4, "Key4"),
    (Macroquad.Key5, "Key5"),
    (Macroquad.Key6, "Key6"),
    (Macroquad.Key7, "Key7"),
    (Macroquad.Key8, "Key8"),
    (Macroquad.Key9, "Key9"),
    (Macroquad.Semicolon, "Semicolon"),
    (Macroquad.Equal, "Equal"),
    (Macroquad.A, "A"),
    (Macroquad.B, "B"),
    (Macroquad.C, "C"),
    (Macroquad.D, "D"),
    (Macroquad.E, "E"),
    (Macroquad.F, "F"),
    (Macroquad.G, "G"),
    (Macroquad.H, "H"),
    (Macroquad.I, "I"),
    (Macroquad.J, "J"),
    (Macroquad.K, "K"),
    (Macroquad.L, "L"),
    (Macroquad.M, "M"),
    (Macroquad.N, "N"),
    (Macroquad.O, "O"),
    (Macroquad.P, "P"),
    (Macroquad.Q, "Q"),
    (Macroquad.R, "R"),
    (Macroquad.S, "S"),
    (Macroquad.T, "T"),
    (Macroquad.U, "U"),
    (Macroquad.V, "V"),
    (Macroquad.W, "W"),
    (Macroquad.X, "X"),
    (Macroquad.Y, "Y"),
    (Macroquad.Z, "Z"),
    (Macroquad.LeftBracket, "LeftBracket"),
    (Macroquad.Backslash, "Backslash"),
    (Macroquad.RightBracket, "RightBracket"),
    (Macroquad.GraveAccent, "GraveAccent"),
    (Macroquad.World1, "World1"),
    (Macroquad.World2, "World2"),
    (Macroquad.Escape, "Escape"),
    (Macroquad.Enter, "Enter"),
    (Macroquad.Tab, "Tab"),
    (Macroquad.Backspace, "Backspace"),
    (Macroquad.Insert, "Insert"),
    (Macroquad.Delete, "Delete"),
    (Macroquad.Right, "Right"),
    (Macroquad.Left, "Left"),
    (Macroquad.Down, "Down"),
    (Macroquad.Up, "Up"),
    (Macroquad.PageUp, "PageUp"),
    (Macroquad.PageDown, "PageDown"),
    (Macroquad.Home, "Home"),
    (Macroquad.End, "End"),
    (Macroquad.CapsLock, "CapsLock"),
    (Macroquad.ScrollLock, "ScrollLock"),
    (Macroquad.NumLock, "NumLock"),
    (Macroquad.PrintScreen, "PrintScreen"),
    (Macroquad.Pause, "Pause"),
    (Macroquad.F1, "F1"),
    (Macroquad.F2, "F2"),
    (Macroquad.F3, "F3"),
    (Macroquad.F4, "F4"),
    (Macroquad.F5, "F5"),
    (Macroquad.F6, "F6"),
    (Macroquad.F7, "F7"),
    (Macroquad.F8, "F8"),
    (Macroquad.F9, "F9"),
    (Macroquad.F10, "F10"),
    (Macroquad.F11, "F11"),
    (Macroquad.F12, "F12"),
    (Macroquad.F13, "F13"),
    (Macroquad.F14, "F14"),
    (Macroquad.F15, "F15"),
    (Macroquad.F16, "F16"),
    (Macroquad.F17, "F17"),
    (Macroquad.F18, "F18"),
    (Macroquad.F19, "F19"),
    (Macroquad.F20, "F20"),
    (Macroquad.F21, "F21"),
    (Macroquad.F22, "F22"),
    (Macroquad.F23, "F23"),
    (Macroquad.F24, "F24"),
    (Macroquad.F25, "F25"),
    (Macroquad.Kp0, "Kp0"),
    (Macroquad.Kp1, "Kp1"),
    (Macroquad.Kp2, "Kp2"),
    (Macroquad.Kp3, "Kp3"),
    (Macroquad.Kp4, "Kp4"),
    (Macroquad.Kp5, "Kp5"),
    (Macroquad.Kp6, "Kp6"),
    (Macroquad.Kp7, "Kp7"),
    (Macroquad.Kp8, "Kp8"),
    (Macroquad.Kp9, "Kp9"),
    (Macroquad.KpDecimal, "KpDecimal"),
    (Macroquad.KpDivide, "KpDivide"),
    (Macroquad.KpMultiply, "KpMultiply"),
    (Macroquad.KpSubtract, "KpSubtract"),
    (Macroquad.KpAdd, "KpAdd"),
    (Macroquad.KpEnter, "KpEnter"),
    (Macroquad.KpEqual, "KpEqual"),
    (Macroquad.LeftShift, "LeftShift"),
    (Macroquad.LeftControl, "LeftControl"),
    (Macroquad.LeftAlt, "LeftAlt"),
    (Macroquad.LeftSuper, "LeftSuper"),
    (Macroquad.RightShift, "RightShift"),
    (Macroquad.RightControl, "RightControl"),
    (Macroquad.RightAlt, "RightAlt"),
    (Macroquad.RightSuper, "RightSuper"),
    (Macroquad.Menu, "Menu"),
    (Macroquad.Unknown, "Unknown")
  ]

  /** The value of the last row of `table` whose first component is `k`. */
  function LastValueFor<K(==), V>(table: seq<(K, V)>, k: K): (r: Option<V>)
    ensures r.None? <==> forall i :: 0 <= i < |table| ==> table[i].0 != k
    ensures r.Some? ==>
      (exists i :: 0 <= i < |table| && table[i] == (k, r.value) && forall j :: i < j < |table| ==> table[j].0 != k)
  {
    if table == [] then Option.None
    else if table[|table| - 1].0 == k then Some(table[|table| - 1].1)
    else LastValueFor(table[..|table| - 1], k)
  }

  /** The table read from right to left. */
  function Swapped<K, V>(table: seq<(K, V)>): (r: seq<(V, K)>)
    ensures |r| == |table|
    ensures forall i :: 0 <= i < |table| ==> r[i] == (table[i].1, table[i].0)
  {
    seq(|table|, i requires 0 <= i < |table| => (table[i].1, table[i].0))
  }

  /** No two rows share a first component. */
  predicate DistinctKeys<K(==), V>(table: seq<(K, V)>)
  {
    forall i, j :: 0 <= i < j < |table| ==> table[i].0 != table[j].0
  }

  /** In a table without repeated keys, a row is exactly what the lookup finds. */
  lemma LookupFindsRow<K, V>(table: seq<(K, V)>, i: nat)
    requires DistinctKeys(table) && i < |table|
    ensures LastValueFor(table, table[i].0) == Some(table[i].1)
  {
    var r := LastValueFor(table, table[i].0);
    var m :| 0 <= m < |table| && table[m] == (table[i].0, r.value) &&
      forall j :: m < j < |table| ==> table[j].0 != table[i].0;
    assert m == i;
  }

  /** `get_action_description_from_game_action`. */
  method GetActionDescriptionFromGameAction(gameAction: GameAction) returns (r: Option<string>)
    ensures r == LastValueFor(GameActionTable, gameAction)
  {
    r := Option.None;
    for i := 0 to |GameActionTable|
      invariant r == LastValueFor(GameActionTable[..i], gameAction)
    {
      assert GameActionTable[..i + 1][..i] == GameActionTable[..i];
      var (code, description) := GameActionTable[i];
      if code == gameAction {
        r := Some(description);
      }
    }
    assert GameActionTable[..|GameActionTable|] == GameActionTable;
  }

  /** `get_game_action_from_key_code`. */
  method GetGameActionFromKeyCode(keyCode: KeyCode) returns (r: Option<GameAction>)
    ensures r == LastValueFor(KeyGameTable, keyCode)
  {
    r := Option.None;
    for i := 0 to |KeyGameTable|
      invariant r == LastValueFor(KeyGameTable[..i], keyCode)
    {
      assert KeyGameTable[..i + 1][..i] == KeyGameTable[..i];
      var (code, action) := KeyGameTable[i];
      if code == keyCode {
        r := Some(action);
      }
    }
    assert KeyGameTable[..|KeyGameTable|] == KeyGameTable;
  }

  /** `get_key_code_from_game_action`: the same table, matched on the action. */
  method GetKeyCodeFromGameAction(gameAction: GameAction) returns (r: Option<KeyCode>)
    ensures r == LastValueFor(Swapped(KeyGameTable), gameAction)
  {
    r := Option.None;
    ghost var swapped := Swapped(KeyGameTable);
    for i := 0 to |KeyGameTable|
      invariant r == LastValueFor(swapped[..i], gameAction)
    {
      assert swapped[..i + 1][..i] == swapped[..i];
      var (code, action) := KeyGameTable[i];
      if action == gameAction {
        r := Some(code);
      }
    }
    assert swapped[..|KeyGameTable|] == swapped;
  }

  /** `get_str_from_key_code`: the listed name, or the empty string for a key
      the table does not list. */
  method GetStrFromKeyCode(keyCode: KeyCode) returns (result: string)
    ensures LastValueFor(KeyCodeWithString, keyCode).Some? ==> result == LastValueFor(KeyCodeWithString, keyCode).value
    ensures LastValueFor(KeyCodeWithString, keyCode).None? ==> result == ""
  {
    result := ScanNames(KeyCodeWithString, keyCode);
  }

  /** The loop of `get_str_from_key_code`, written over a table parameter:
      unrolled over the 121-row constant itself, the loop's proof is too costly
      for the verifier, while over an arbitrary table it is the same few lines
      as the other lookups. */
  method ScanNames(table: seq<(KeyCode, string)>, keyCode: KeyCode) returns (result: string)
    ensures LastValueFor(table, keyCode).Some? ==> result == LastValueFor(table, keyCode).value
    ensures LastValueFor(table, keyCode).None? ==> result == ""
  {
    result := "";
    for i := 0 to |table|
      invariant result == match LastValueFor(table[..i], keyCode) case Some(name) => name case None => ""
    {
      assert table[..i + 1][..i] == table[..i];
      var (key, value) := table[i];
      if key == keyCode {
        result := value;
      }
    }
    assert table[..|table|] == table;
  }

  /** Every action but `None` has its description; `None` has none. */
  lemma ActionDescriptions()
    ensures LastValueFor(GameActionTable, Up) == Some("Go Up: ")
    ensures LastValueFor(GameActionTable, Down) == Some("Go Down: ")
    ensures LastValueFor(GameActionTable, Mute) == Some("Mute: ")
    ensures LastValueFor(GameActionTable, PauseResume) == Some("Pause and resume: ")
    ensures LastValueFor(GameActionTable, Quit) == Some("Quit: ")
    ensures LastValueFor(GameActionTable, GameAction.None) == Option.None
  {
    assert DistinctKeys(GameActionTable);
    LookupFindsRow(GameActionTable, 0);
    LookupFindsRow(GameActionTable, 1);
    LookupFindsRow(GameActionTable, 2);
    LookupFindsRow(GameActionTable, 3);
    LookupFindsRow(GameActionTable, 4);
  }

  /** The key bindings have neither a repeated key nor a repeated action. */
  lemma KeyBindingsDistinct()
    ensures DistinctKeys(KeyGameTable)
    ensures DistinctKeys(Swapped(KeyGameTable))
  {
  }

  /** Key to action and back, and action to key and back, are the identity on
      every binding; a key or action without a binding finds nothing. */
  lemma KeyBindingsRoundTrip(keyCode: KeyCode, gameAction: GameAction)
    ensures LastValueFor(KeyGameTable, keyCode).Some? ==>
      LastValueFor(Swapped(KeyGameTable), LastValueFor(KeyGameTable, keyCode).value) == Some(keyCode)
    ensures LastValueFor(Swapped(KeyGameTable), gameAction).Some? ==>
      LastValueFor(KeyGameTable, LastValueFor(Swapped(KeyGameTable), gameAction).value) == Some(gameAction)
    ensures LastValueFor(Swapped(KeyGameTable), GameAction.None) == Option.None
  {
    KeyBindingsDistinct();
    var t := KeyGameTable;
    var s := Swapped(KeyGameTable);
    var r := LastValueFor(t, keyCode);
    if r.Some? {
      var i :| 0 <= i < |t| && t[i] == (keyCode, r.value) && forall j :: i < j < |t| ==> t[j].0 != keyCode;
      LookupFindsRow(s, i);
    }
    var q := LastValueFor(s, gameAction);
    if q.Some? {
      var i :| 0 <= i < |s| && s[i] == (gameAction, q.value) && forall j :: i < j < |s| ==> s[j].0 != gameAction;
      LookupFindsRow(t, i);
    }
  }

  /** The bindings of the game: Z up, S down, Space pause, Escape quit, M mute. */
  lemma KeyBindings()
    ensures LastValueFor(KeyGameTable, Macroquad.Z) == Some(Up)
    ensures LastValueFor(KeyGameTable, Macroquad.S) == Some(Down)
    ensures LastValueFor(KeyGameTable, Macroquad.Space) == Some(PauseResume)
    ensures LastValueFor(KeyGameTable, Macroquad.Escape) == Some(Quit)
    ensures LastValueFor(KeyGameTable, Macroquad.M) == Some(Mute)
  {
    KeyBindingsDistinct();
    LookupFindsRow(KeyGameTable, 0);
    LookupFindsRow(KeyGameTable, 1);
    LookupFindsRow(KeyGameTable, 2);
    LookupFindsRow(KeyGameTable, 3);
    LookupFindsRow(KeyGameTable, 4);
  }
}
