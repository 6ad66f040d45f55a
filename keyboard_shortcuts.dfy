/**
  The keyboard shortcut dispatcher: from the fields of a keydown event and the
  set of handlers the application supplied, the one handler to invoke (if any)
  and whether the browser default is prevented. Listener registration is
  outside the model.
 */
module KeyboardShortcuts {
  import opened Common

  /** The actions of the shortcut table; the handler of an action is named after it. */
  datatype Action = Record | Play | Stop | Clear | Metronome | Export | Undo | Redo

  /** What kind of element the event targets. */
  datatype Target = InputElement | TextAreaElement | SelectElement | OtherElement

  datatype KeyEvent = KeyEvent(target: Target, key: string, ctrlKey: bool, metaKey: bool, shiftKey: bool)

  /** The handler invoked, if any, and whether `preventDefault` was called. */
  datatype Decision = Decision(invoked: Option<Action>, preventDefault: bool)

  const Nothing := Decision(None, false)

  /** `SHORTCUTS`: the single-key table. */
  function Shortcut(key: string): (r: Option<Action>)
    ensures r.Some? <==> key in {"r", " ", "s", "c", "m", "e", "z", "y"}
  {
    if key == "r" then Some(Record)
    else if key == " " then Some(Play)
    else if key == "s" then Some(Stop)
    else if key == "c" then Some(Clear)
    else if key == "m" then Some(Metronome)
    else if key == "e" then Some(Export)
    else if key == "z" then Some(Undo)
    else if key == "y" then Some(Redo)
    else None
  }

  /** `toLowerCase` on the ASCII letters. */
  function ToLower(s: string): (r: string)
    ensures |r| == |s|
    ensures forall i :: 0 <= i < |s| ==> (if 'A' <= s[i] <= 'Z' then r[i] as int == s[i] as int + 32 else r[i] == s[i])
  {
    seq(|s|, i requires 0 <= i < |s| => if 'A' <= s[i] <= 'Z' then (s[i] as int + 32) as char else s[i])
  }

  /** The switch over the action: undo and redo have no case. */
  function SwitchCase(action: Action, present: set<Action>): Option<Action>
  {
    if action in {Record, Play, Stop, Clear, Metronome, Export} && action in present then Some(action) else None
  }

  /** `handleKeyPress`. */
  function HandleKeyPress(e: KeyEvent, present: set<Action>): (d: Decision)
    ensures d.invoked.Some? ==> d.invoked.value in present && d.preventDefault
  {
    if e.target != OtherElement then Nothing
    else
      var isCtrlOrCmd := e.ctrlKey || e.metaKey;
      var isShift := e.shiftKey;
      if isCtrlOrCmd && !isShift && e.key == "z" && Undo in present then Decision(Some(Undo), true)
      else if isCtrlOrCmd && !isShift && (e.key == "y" || (e.key == "z" && isShift)) && Redo in present then Decision(Some(Redo), true)
      else if isCtrlOrCmd && !isShift && e.key == "e" && Export in present then Decision(Some(Export), true)
      else
        var action := Shortcut(ToLower(e.key));
        if action.Some? && !isCtrlOrCmd && !isShift then Decision(SwitchCase(action.value, present), true)
        else Nothing
  }

  // ---------------------------------------------------------------- properties

  /** Typing in an input, a text area or a select invokes nothing and prevents nothing. */
  lemma FormFieldsIgnored(e: KeyEvent, present: set<Action>)
    requires e.target != OtherElement
    ensures HandleKeyPress(e, present) == Nothing
  {
  }

  /** With Ctrl or Cmd and no Shift, 'z', 'y' and 'e' invoke undo, redo and export when those
      handlers are present. */
  lemma CommandShortcuts(e: KeyEvent, present: set<Action>)
    requires e.target == OtherElement && (e.ctrlKey || e.metaKey) && !e.shiftKey
    ensures e.key == "z" && Undo in present ==> HandleKeyPress(e, present) == Decision(Some(Undo), true)
    ensures e.key == "y" && Redo in present ==> HandleKeyPress(e, present) == Decision(Some(Redo), true)
    ensures e.key == "e" && Export in present ==> HandleKeyPress(e, present) == Decision(Some(Export), true)
  {
  }

  /** Redo runs exactly for Ctrl/Cmd+y without Shift: the Shift+z alternative sits inside the
      no-Shift branch, so Ctrl/Cmd+Shift+Z never redoes. */
  lemma RedoOnlyOnCtrlY(e: KeyEvent, present: set<Action>)
    ensures HandleKeyPress(e, present).invoked == Some(Redo) <==>
      e.target == OtherElement && (e.ctrlKey || e.metaKey) && !e.shiftKey && e.key == "y" && Redo in present
  {
  }

  /** Undo runs exactly for Ctrl/Cmd+z without Shift; the unmodified 'z' has no case. */
  lemma UndoOnlyOnCtrlZ(e: KeyEvent, present: set<Action>)
    ensures HandleKeyPress(e, present).invoked == Some(Undo) <==>
      e.target == OtherElement && (e.ctrlKey || e.metaKey) && !e.shiftKey && e.key == "z" && Undo in present
  {
  }

  /** An unmodified r, space, s, c, m or e, in either case, invokes its handler if present. */
  lemma SingleKeys(e: KeyEvent, present: set<Action>, a: Action, letter: char)
    requires e.target == OtherElement && !e.ctrlKey && !e.metaKey && !e.shiftKey
    requires (a, letter) in {(Record, 'r'), (Play, ' '), (Stop, 's'), (Clear, 'c'), (Metronome, 'm'), (Export, 'e')}
    requires e.key == [letter] || ('a' <= letter <= 'z' && e.key == [(letter as int - 32) as char])
    ensures HandleKeyPress(e, present) == Decision(if a in present then Some(a) else None, true)
  {
    assert ToLower(e.key) == [letter];
  }

  /** An unmodified z or y prevents the default but no handler runs. */
  lemma PlainUndoRedoKeysDoNothing(e: KeyEvent, present: set<Action>)
    requires e.target == OtherElement && !e.ctrlKey && !e.metaKey && !e.shiftKey
    requires e.key in {"z", "y", "Z", "Y"}
    ensures HandleKeyPress(e, present) == Decision(None, true)
  {
    var k := ToLower(e.key);
    assert |k| == 1 && (k[0] == 'z' || k[0] == 'y');
    assert k == [k[0]];
  }

  /** Shift, or Ctrl/Cmd with a key other than z, y and e, invokes nothing. */
  lemma OtherChordsDoNothing(e: KeyEvent, present: set<Action>)
    requires e.shiftKey || ((e.ctrlKey || e.metaKey) && e.key !in {"z", "y", "e"})
    ensures HandleKeyPress(e, present) == Nothing
  {
  }
}
