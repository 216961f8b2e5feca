/**
 * `src/components/Settings/ShortcutRecorder.tsx`: records a key combination for a global
 * shortcut. While recording, each key-down rebuilds the combination from the event and
 * each key-up commits a non-empty combination through `onChange`; the listeners exist only
 * while recording, so events outside it change nothing. Upper-casing is ASCII.
 */
module ShortcutRecorder {
  import opened Strings

  /** The fields of a `KeyboardEvent` the handler reads. */
  datatype KeyEvent = KeyEvent(key: string, ctrlKey: bool, altKey: bool, shiftKey: bool, metaKey: bool)

  /** The names a combination uses for the four modifier flags, in the order it lists them. */
  const ModifierOrder: seq<string> := ["Control", "Alt", "Shift", "Command"]

  /** Key names that are never appended as the main key. */
  const Modifiers: seq<string> := ["Control", "Alt", "Shift", "Command", "Meta"]

  /** `e.key === ' ' ? 'Space' : e.key.charAt(0).toUpperCase() + e.key.slice(1)`. */
  function KeyName(key: string): (n: string)
    ensures key == " " ==> n == "Space"
    ensures key == [] ==> n == []
    ensures key != " " && |key| > 0 ==> |n| == |key| && n[0] == UpperChar(key[0]) && n[1..] == key[1..]
  {
    if key == " " then "Space"
    else if key == [] then []
    else [UpperChar(key[0])] + key[1..]
  }

  /** The entries of `names` whose flag is set, in order: the reference the handler's pushes are checked against. */
  function Selected(names: seq<string>, flags: seq<bool>): (r: seq<string>)
    requires |names| == |flags|
    ensures |r| <= |names|
    ensures forall x :: x in r ==> x in names
  {
    if names == [] then []
    else (if flags[0] then [names[0]] else []) + Selected(names[1..], flags[1..])
  }

  /** The modifier part of an event's combination. */
  function ModifierKeys(e: KeyEvent): seq<string> {
    Selected(ModifierOrder, [e.ctrlKey, e.altKey, e.shiftKey, e.metaKey])
  }

  /** The modifier part spelled out flag by flag. */
  lemma ModifierKeysByFlag(e: KeyEvent)
    ensures ModifierKeys(e) ==
      (if e.ctrlKey then ["Control"] else []) + (if e.altKey then ["Alt"] else [])
      + (if e.shiftKey then ["Shift"] else []) + (if e.metaKey then ["Command"] else [])
  {
    var n3, f3 := ["Command"], [e.metaKey];
    var n2, f2 := ["Shift"] + n3, [e.shiftKey] + f3;
    var n1, f1 := ["Alt"] + n2, [e.altKey] + f2;
    assert n3[1..] == [] && f3[1..] == [];
    assert n2[1..] == n3 && f2[1..] == f3;
    assert n1[1..] == n2 && f1[1..] == f2;
    assert ModifierOrder == ["Control"] + n1 && ModifierOrder[1..] == n1;
    assert [e.ctrlKey, e.altKey, e.shiftKey, e.metaKey][1..] == f1;
    var s3 := if e.metaKey then ["Command"] else [];
    var s2 := (if e.shiftKey then ["Shift"] else []) + s3;
    var s1 := (if e.altKey then ["Alt"] else []) + s2;
    assert Selected(n3, f3) == s3 + Selected([], []);
    assert Selected(n2, f2) == s2;
    assert Selected(n1, f1) == s1;
    assert ModifierKeys(e) == (if e.ctrlKey then ["Control"] else []) + s1;
  }

  /** The main-key part: the key's name, unless that name is itself a modifier. */
  function MainKey(e: KeyEvent): (r: seq<string>)
    ensures |r| <= 1
    ensures r == [] <==> KeyName(e.key) in Modifiers
    ensures r != [] ==> r[0] == KeyName(e.key)
  {
    if KeyName(e.key) in Modifiers then [] else [KeyName(e.key)]
  }

  /** The keys `handleKeyDown` collects, pushed one by one as the handler does. */
  method Combination(e: KeyEvent) returns (keys: seq<string>)
    ensures keys == ModifierKeys(e) + MainKey(e)
  {
    keys := [];
    if e.ctrlKey { keys := keys + ["Control"]; }
    if e.altKey { keys := keys + ["Alt"]; }
    if e.shiftKey { keys := keys + ["Shift"]; }
    if e.metaKey { keys := keys + ["Command"]; }
    var key := KeyName(e.key);
    if key !in Modifiers {
      keys := keys + [key];
    }
    ModifierKeysByFlag(e);
  }

  /**
   * A combination lists its modifiers in the fixed order Control, Alt, Shift, Command, one
   * per set flag, then at most one main key, which is never a modifier name.
   */
  lemma CombinationShape(e: KeyEvent)
    ensures var keys := ModifierKeys(e) + MainKey(e);
      && (forall k :: 0 <= k < |ModifierKeys(e)| ==> keys[k] in ModifierOrder)
      && (|keys| > |ModifierKeys(e)| ==> |keys| == |ModifierKeys(e)| + 1 && keys[|keys| - 1] !in Modifiers)
      && (e.ctrlKey <==> "Control" in keys)
  {
    ModifierKeysByFlag(e);
    var m := ModifierKeys(e);
    var keys := m + MainKey(e);
    assert forall k :: 0 <= k < |m| ==> keys[k] == m[k] && m[k] in m;
    assert e.ctrlKey ==> m[0] == "Control";
  }

  /** Pressing the space bar alone records `Space`. */
  lemma SpaceAlone()
    ensures ModifierKeys(KeyEvent(" ", false, false, false, false)) + MainKey(KeyEvent(" ", false, false, false, false)) == ["Space"]
  {
    assert "Space" !in Modifiers;
  }

  /** The recorder button's state and what it has committed through `onChange`. */
  class Recorder {
    var isRecording: bool
    var currentKeys: seq<string>
    /** The shortcuts passed to `onChange`, oldest first. */
    var committed: seq<string>

    constructor ()
      ensures !isRecording && currentKeys == [] && committed == []
    {
      isRecording := false;
      currentKeys := [];
      committed := [];
    }

    /** The button's click starts recording. */
    method Click()
      modifies this`isRecording
      ensures isRecording
    {
      isRecording := true;
    }

    /** `handleKeyDown`: while recording, the combination replaces the current keys. */
    method KeyDown(e: KeyEvent)
      modifies this`currentKeys
      ensures currentKeys == if old(isRecording) then ModifierKeys(e) + MainKey(e) else old(currentKeys)
    {
      if isRecording {
        currentKeys := Combination(e);
      }
    }

    /**
     * `handleKeyUp`: while recording, a non-empty combination is committed joined by `+`,
     * recording stops and the keys are cleared; an empty one changes nothing.
     */
    method KeyUp()
      modifies this`isRecording, this`currentKeys, this`committed
      ensures old(isRecording) && old(currentKeys) != [] ==>
        committed == old(committed) + [Join(old(currentKeys), "+")] && !isRecording && currentKeys == []
      ensures !(old(isRecording) && old(currentKeys) != []) ==>
        committed == old(committed) && isRecording == old(isRecording) && currentKeys == old(currentKeys)
    {
      if isRecording && |currentKeys| > 0 {
        committed := committed + [Join(currentKeys, "+")];
        isRecording := false;
        currentKeys := [];
      }
    }

    /** The button's caption, `value` being the shortcut the parent holds. */
    function Caption(value: string): string
      reads this
    {
      if !isRecording then value
      else if |currentKeys| > 0 then Join(currentKeys, " + ")
      else "Press Keys..."
    }
  }
}
