/** Keyboard shortcuts (src/hooks/useKeyboardShortcuts.js): which of the
    registered shortcuts a key press fires, and how a shortcut is labelled
    on Mac and elsewhere. Callbacks are represented by the shortcut's index
    in the list, and the module's `isMac` constant is the `isMac`
    parameter of the labelling functions. */
module KeyboardShortcuts {
  import opened TextUtil

  /** A registered shortcut; flags the caller leaves out are `false`. */
  datatype Shortcut = Shortcut(key: string, ctrl: bool, alt: bool, shift: bool, meta: bool, allowInInput: bool)

  /** The fields of a `keydown` event the hook reads. */
  datatype KeyEvent = KeyEvent(key: string, code: string, tagName: string,
                               ctrlKey: bool, altKey: bool, shiftKey: bool, metaKey: bool)

  predicate IsInputField(tagName: string)
  {
    tagName == "INPUT" || tagName == "TEXTAREA" || tagName == "SELECT"
  }

  /** `event.key` equal to the key ignoring case, or `event.code` equal to
      it exactly. */
  predicate KeyMatches(e: KeyEvent, key: string)
  {
    ToLower(e.key) == ToLower(key) || e.code == key
  }

  /** Required Ctrl is met by Ctrl or Meta; Alt and Shift must be pressed
      exactly when required; Ctrl and Meta not required are ignored. */
  predicate ModifiersMatch(e: KeyEvent, s: Shortcut)
  {
    (s.ctrl ==> e.ctrlKey || e.metaKey)
    && (if s.alt then e.altKey else !e.altKey)
    && (if s.shift then e.shiftKey else !e.shiftKey)
    && (s.meta ==> e.metaKey)
  }

  /** Shortcut `s` fires on `e`. */
  predicate Fires(e: KeyEvent, s: Shortcut)
  {
    (!IsInputField(e.tagName) || s.allowInInput) && KeyMatches(e, s.key) && ModifiersMatch(e, s)
  }

  /** The indices below `n` of the shortcuts that fire, in list order. */
  function FiringBelow(shortcuts: seq<Shortcut>, e: KeyEvent, n: nat): (r: seq<nat>)
    requires n <= |shortcuts|
    ensures forall k :: 0 <= k < |r| ==> r[k] < n && Fires(e, shortcuts[r[k]])
    ensures forall i :: 0 <= i < n && Fires(e, shortcuts[i]) ==> i in r
    ensures forall k, l :: 0 <= k < l < |r| ==> r[k] < r[l]
  {
    if n == 0 then []
    else
      var prev := FiringBelow(shortcuts, e, n - 1);
      if Fires(e, shortcuts[n - 1]) then prev + [n - 1] else prev
  }

  /** Every shortcut that fires, in list order. */
  function Firing(shortcuts: seq<Shortcut>, e: KeyEvent): seq<nat>
  {
    FiringBelow(shortcuts, e, |shortcuts|)
  }

  /** `handleKeyDown`: each firing shortcut's callback is called, in order;
      `prevented` tells whether `preventDefault` was called. */
  method HandleKeyDown(shortcuts: seq<Shortcut>, e: KeyEvent) returns (fired: seq<nat>, prevented: bool)
    ensures fired == Firing(shortcuts, e)
    ensures prevented <==> fired != []
  {
    var isInputField := IsInputField(e.tagName);
    fired := [];
    prevented := false;
    var i := 0;
    while i < |shortcuts|
      invariant 0 <= i <= |shortcuts|
      invariant fired == FiringBelow(shortcuts, e, i)
      invariant prevented <==> fired != []
    {
      var s := shortcuts[i];
      if !(isInputField && !s.allowInInput) {
        var keyMatches := ToLower(e.key) == ToLower(s.key) || e.code == s.key;
        var modifiersMatch :=
          (if s.ctrl then e.ctrlKey || e.metaKey else true)
          && (if s.alt then e.altKey else !e.altKey)
          && (if s.shift then e.shiftKey else !e.shiftKey)
          && (if s.meta then e.metaKey else true);
        if keyMatches && modifiersMatch {
          prevented := true;
          fired := fired + [i];
        }
      }
      i := i + 1;
    }
  }

  /** A shortcut that does not ask for Shift never fires while Shift is
      held (so one registered as `?` without `shift` cannot fire on a
      keyboard where `?` needs Shift), and likewise for Alt. */
  lemma UnrequestedShiftOrAltBlocks(e: KeyEvent, s: Shortcut)
    requires (!s.shift && e.shiftKey) || (!s.alt && e.altKey)
    ensures !Fires(e, s)
  {
  }

  /** Cmd satisfies a Ctrl shortcut, and the letter's case does not matter. */
  lemma MetaSatisfiesCtrl(s: Shortcut, key: string, code: string, tagName: string)
    requires s.ctrl && !s.alt && !s.shift && !IsInputField(tagName)
    requires ToLower(key) == ToLower(s.key)
    ensures Fires(KeyEvent(key, code, tagName, false, false, false, true), s)
    ensures !s.meta ==> Fires(KeyEvent(ToUpper(key), code, tagName, true, false, false, false), s)
  {
    assert forall i :: 0 <= i < |key| ==> LowerChar(UpperChar(key[i])) == LowerChar(key[i]);
    assert ToLower(ToUpper(key)) == ToLower(key);
  }

  /** In a text field only shortcuts marked `allowInInput` can fire. */
  lemma InputFieldsFilter(shortcuts: seq<Shortcut>, e: KeyEvent)
    requires IsInputField(e.tagName)
    ensures forall k :: 0 <= k < |Firing(shortcuts, e)| ==> shortcuts[Firing(shortcuts, e)[k]].allowInInput
  {
  }

  // ---------------------------------------------------------------------
  // Labels
  // ---------------------------------------------------------------------

  const CommandSign: string := "\U{2318}"
  const OptionSign: string := "\U{2325}"
  const ShiftSign: string := "\U{21E7}"

  /** `getModifierKey()` */
  function GetModifierKey(isMac: bool): string
  {
    if isMac then CommandSign else "Ctrl"
  }

  /** The `parts` of `formatShortcut`: the requested modifier labels in
      the order Ctrl, Alt, Shift, then the upper-cased key. */
  function ShortcutParts(key: string, ctrl: bool, alt: bool, shift: bool, isMac: bool): (r: seq<string>)
    ensures |r| == (if ctrl then 1 else 0) + (if alt then 1 else 0) + (if shift then 1 else 0) + 1
    ensures r[|r| - 1] == ToUpper(key)
    ensures ctrl ==> r[0] == GetModifierKey(isMac)
  {
    (if ctrl then [GetModifierKey(isMac)] else [])
    + (if alt then [if isMac then OptionSign else "Alt"] else [])
    + (if shift then [if isMac then ShiftSign else "Shift"] else [])
    + [ToUpper(key)]
  }

  /** `parts.join('')` */
  function Concat(parts: seq<string>): string
  {
    if parts == [] then "" else parts[0] + Concat(parts[1..])
  }

  /** The label: parts joined by `+`, or run together on a Mac. */
  function Label(parts: seq<string>, isMac: bool): string
  {
    if isMac then Concat(parts) else Join(parts, '+')
  }

  /** `formatShortcut(key, ctrl, alt, shift)`, building `parts` by pushes. */
  method FormatShortcut(key: string, ctrl: bool, alt: bool, shift: bool, isMac: bool) returns (text: string)
    ensures text == Label(ShortcutParts(key, ctrl, alt, shift, isMac), isMac)
  {
    var parts: seq<string> := [];
    if ctrl {
      parts := parts + [GetModifierKey(isMac)];
    }
    if alt {
      parts := parts + [if isMac then OptionSign else "Alt"];
    }
    if shift {
      parts := parts + [if isMac then ShiftSign else "Shift"];
    }
    parts := parts + [ToUpper(key)];
    assert parts == ShortcutParts(key, ctrl, alt, shift, isMac);
    text := if isMac then Concat(parts) else Join(parts, '+');
  }

  /** The documented examples: `Ctrl+S` and `⌘S`. */
  lemma FormatExamples()
    ensures Label(ShortcutParts("s", true, false, false, false), false) == "Ctrl+S"
    ensures Label(ShortcutParts("s", true, false, false, true), true) == CommandSign + "S"
  {
    assert ToUpper("s") == "S";
    assert ShortcutParts("s", true, false, false, false) == ["Ctrl", "S"];
    assert ShortcutParts("s", true, false, false, true) == [CommandSign, "S"];
    assert Concat(["S"]) == "S";
  }

  /** Off a Mac the label splits back at `+` into its parts, provided the
      key itself is not `+`-bearing. */
  lemma LabelSplitsBack(key: string, ctrl: bool, alt: bool, shift: bool)
    requires '+' !in key
    ensures Split(Label(ShortcutParts(key, ctrl, alt, shift, false), false), '+')
            == ShortcutParts(key, ctrl, alt, shift, false)
  {
    var parts := ShortcutParts(key, ctrl, alt, shift, false);
    assert '+' !in ToUpper(key) by {
      forall i | 0 <= i < |key| ensures ToUpper(key)[i] != '+' {
        assert key[i] != '+';
      }
    }
    assert forall i :: 0 <= i < |parts| ==> parts[i] in {"Ctrl", "Alt", "Shift", ToUpper(key)};
    SplitJoin(parts, '+');
  }
}
