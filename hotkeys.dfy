/**
 * The chord filter of the global keyboard handler: a key-down event of "A"
 * or "R" while a Ctrl key and an Alt key are both held.
 */
module Hotkeys {
  import opened Wrappers

  /** A keyboard event: its state ("DOWN" or "UP") and the key's name. */
  datatype KeyEvent = KeyEvent(state: string, name: string)

  /** What a recognised chord asks for: Ctrl+Alt+A adds, Ctrl+Alt+R removes. */
  datatype Intent = Add | Remove

  const LeftCtrl := "LEFT CTRL"
  const RightCtrl := "RIGHT CTRL"
  const LeftAlt := "LEFT ALT"
  const RightAlt := "RIGHT ALT"

  /** The key a chord's letter must be. */
  function Letter(intent: Intent): string
  {
    match intent
    case Add => "A"
    case Remove => "R"
  }

  /**
   * Whether `key` is held according to the listener's table of held keys;
   * a key absent from the table reads as undefined, which is not held.
   */
  predicate Held(down: map<string, bool>, key: string)
  {
    key in down && down[key]
  }

  /**
   * The intent of one key event, or None when the handler ignores it: only a
   * key-down, only with a Ctrl and an Alt held, and only for the two letters.
   */
  function ChordIntent(e: KeyEvent, down: map<string, bool>): (r: Option<Intent>)
    ensures r.Some? ==> e.state == "DOWN"
    ensures r.Some? ==> (Held(down, LeftCtrl) || Held(down, RightCtrl)) && (Held(down, LeftAlt) || Held(down, RightAlt))
    ensures r.Some? ==> e.name == Letter(r.value)
    ensures r.None? ==> e.state != "DOWN" || !(Held(down, LeftCtrl) || Held(down, RightCtrl))
                        || !(Held(down, LeftAlt) || Held(down, RightAlt)) || (e.name != "A" && e.name != "R")
  {
    if e.state != "DOWN" then None
    else
      var isCtrl := Held(down, LeftCtrl) || Held(down, RightCtrl);
      var isAlt := Held(down, LeftAlt) || Held(down, RightAlt);
      var key := e.name;
      if isCtrl && isAlt && (key == "A" || key == "R") then
        Some(if key == "A" then Add else Remove)
      else None
  }

  /**
   * Only the four modifier entries of the held-key table are consulted:
   * other held keys (Shift, a second letter, ...) never change the outcome.
   */
  lemma ChordIgnoresOtherKeys(e: KeyEvent, down: map<string, bool>, down': map<string, bool>)
    requires forall k :: k in {LeftCtrl, RightCtrl, LeftAlt, RightAlt} ==> Held(down, k) == Held(down', k)
    ensures ChordIntent(e, down) == ChordIntent(e, down')
  {
  }
}
