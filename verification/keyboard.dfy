/**
 * Keyboard and text-change actions of the tester. The element and the
 * app are oracles: what the element reports about its focus and value,
 * and which menu items appear. The actions are recorded as a trace of
 * UI events; a thrown error ends the trace.
 */
module Keyboard {
  import opened Wrappers
  import ElementErrors

  /** The element's `value`, as far as the actions look at it. */
  datatype TextValue = StringValue(s: string) | OtherValue | NoValue

  datatype Field = Field(
    element: ElementErrors.Element,
    hasKeyboardFocus: bool,        // before any press
    focusedAfterPress: bool,       // after the press at (0.9, 0.9)
    hasFocus: bool,
    value: TextValue,
    textFields: seq<Field>)        // the element's descendant text fields, in query order

  /** What appears on screen within the half-second wait for each menu item. */
  datatype Menus = Menus(selectAllAppears: bool, pasteAppears: bool, allowPasteAppears: bool)

  /** The keyboard keys the actions type. */
  datatype Key = Return | Delete
  datatype TapKeyType = ReturnKey | BackspaceKey
  datatype ChangeTextType = Clear | Type(text: string) | Replace(text: string)

  datatype Event =
    | PressAt(element: ElementErrors.Element, dx: real, dy: real)
    | ShortPress(element: ElementErrors.Element)
    | TypeKey(key: Key)
    | TypeText(text: string)
    | TapSelectAll
    | SetPasteboard(text: string)
    | TapPaste
    | TapAllowPaste

  /** The events of an action, and the error it threw, if any. */
  datatype Run = Run(events: seq<Event>, error: Option<ElementErrors.Error>)

  function Ok(events: seq<Event>): Run {
    Run(events, None)
  }

  /** Runs `next` after `first` unless `first` threw. */
  function Then(first: Run, next: Run): (r: Run)
    ensures first.error.Some? ==> r == first
    ensures first.error.None? ==> r == Run(first.events + next.events, next.error)
  {
    if first.error.Some? then first else Run(first.events + next.events, next.error)
  }

  /** `hasKeyboardFocusOnTextField`: the first text field's focus, or the element's own. */
  function HasKeyboardFocusOnTextField(f: Field): (b: bool)
    ensures |f.textFields| == 0 ==> (b <==> f.hasKeyboardFocus || f.hasFocus)
    ensures |f.textFields| > 0 ==> (b <==> f.textFields[0].hasKeyboardFocus || f.textFields[0].hasFocus)
  {
    var field := if |f.textFields| > 0 then f.textFields[0] else f;
    field.hasKeyboardFocus || field.hasFocus
  }

  /** `focusKeyboard`: nothing when already focused, else one press at (0.9, 0.9) and no retry. */
  function FocusKeyboard(f: Field): (r: Run)
    ensures f.hasKeyboardFocus ==> r == Ok([])
    ensures !f.hasKeyboardFocus ==> r.events == [PressAt(f.element, 0.9, 0.9)]
    ensures r.error.Some? <==> !f.hasKeyboardFocus && !f.focusedAfterPress
    ensures r.error.Some? ==> r.error.value == ElementErrors.FailedToFocusKeyboardOnElement(f.element)
  {
    if f.hasKeyboardFocus then Ok([])
    else
      Run([PressAt(f.element, 0.9, 0.9)],
        if f.focusedAfterPress then None else Some(ElementErrors.FailedToFocusKeyboardOnElement(f.element)))
  }

  function KeyOf(k: TapKeyType): Key {
    match k
    case ReturnKey => Return
    case BackspaceKey => Delete
  }

  /** `tapKey`: focus, then type exactly one return or delete key. */
  function TapKey(f: Field, keyType: TapKeyType): (r: Run)
    ensures r.error == FocusKeyboard(f).error
    ensures r.error.None? ==> r.events == FocusKeyboard(f).events + [TypeKey(KeyOf(keyType))]
    ensures r.error.Some? ==> forall i | 0 <= i < |r.events| :: !r.events[i].TypeKey?
  {
    Then(FocusKeyboard(f), Ok([TypeKey(KeyOf(keyType))]))
  }

  /** A successful `tapKey` types one key, as its last event, and no key before it. */
  lemma TapKeyTypesOnce(f: Field, keyType: TapKeyType)
    ensures var r := TapKey(f, keyType);
      r.error.None? ==>
        |r.events| > 0 && r.events[|r.events| - 1] == TypeKey(KeyOf(keyType)) &&
        forall i | 0 <= i < |r.events| - 1 :: !r.events[i].TypeKey?
  {
  }

  /** `tapOnSelectAllIfPresent`: taps "Select All" only over a non-empty string value, and only if it appears. */
  function TapOnSelectAllIfPresent(menus: Menus, f: Field, completion: Option<seq<Event>>): (events: seq<Event>)
    ensures var tapped := f.value.StringValue? && |f.value.s| > 0 && menus.selectAllAppears;
      events == if tapped then [TapSelectAll] + completion.GetOr([]) else []
  {
    if f.value.StringValue? && |f.value.s| > 0 && menus.selectAllAppears then
      [TapSelectAll] + (match completion case Some(c) => c case None => [])
    else []
  }

  /** `selectAllText`: focus, press, and try "Select All"; the completion it is given is not passed on. */
  function SelectAllText(menus: Menus, f: Field, completion: Option<seq<Event>>): Run {
    Then(FocusKeyboard(f), Ok([ShortPress(f.element)] + TapOnSelectAllIfPresent(menus, f, None)))
  }

  /** `pressOnAllowPaste`: taps "Allow Paste" when the system asks. */
  function PressOnAllowPaste(menus: Menus): seq<Event> {
    if menus.allowPasteAppears then [TapAllowPaste] else []
  }

  /** `tapOnPasteText`: a missing "Paste" item throws; otherwise tap it and run the completion. */
  function TapOnPasteText(menus: Menus, completion: seq<Event>): (r: Run)
    ensures r.error.Some? <==> !menus.pasteAppears
    ensures r.error.Some? ==> r == Run([], Some(ElementErrors.FailedToPasteNewText("paste")))
    ensures r.error.None? ==> r.events == [TapPaste] + completion
  {
    if menus.pasteAppears then Ok([TapPaste] + completion)
    else Run([], Some(ElementErrors.FailedToPasteNewText("paste")))
  }

  /** `deleteText`: select all, meaning to type a delete key afterwards. */
  function DeleteText(menus: Menus, f: Field): Run {
    SelectAllText(menus, f, Some([TypeKey(Delete)]))
  }

  /** `addText`: focus, then type the text. */
  function AddText(f: Field, text: string): (r: Run)
    ensures r.error == FocusKeyboard(f).error
    ensures r.error.None? ==> r.events == FocusKeyboard(f).events + [TypeText(text)]
  {
    Then(FocusKeyboard(f), Ok([TypeText(text)]))
  }

  /** `deleteAndPasteText`: put the text on the pasteboard, select all, paste, allow the paste. */
  function DeleteAndPasteText(menus: Menus, f: Field, text: string): Run {
    Then(Ok([SetPasteboard(text)]),
      Then(SelectAllText(menus, f, None), TapOnPasteText(menus, PressOnAllowPaste(menus))))
  }

  /** The field `changeText` ends up acting on: the first text field, recursively. */
  function Innermost(f: Field): (g: Field)
    ensures |g.textFields| == 0
  {
    if |f.textFields| > 0 then Innermost(f.textFields[0]) else f
  }

  /** `changeText`: delegated to the first text field when there is one; a non-string value throws before any event. */
  function ChangeText(menus: Menus, f: Field, change: ChangeTextType): Run {
    if |f.textFields| > 0 then ChangeText(menus, f.textFields[0], change)
    else if !f.value.StringValue? then Run([], Some(ElementErrors.InvalidKeyboardTypeActionNonStringValue))
    else
      match change
      case Clear => DeleteText(menus, f)
      case Type(text) => AddText(f, text)
      case Replace(text) => DeleteAndPasteText(menus, f, text)
  }

  /** The change on a field without inner text fields, as `changeText` performs it there. */
  function ChangeOwnText(menus: Menus, f: Field, change: ChangeTextType): (r: Run)
    requires |f.textFields| == 0
    ensures !f.value.StringValue? ==> r == Run([], Some(ElementErrors.InvalidKeyboardTypeActionNonStringValue))
    ensures f.value.StringValue? && change.Clear? ==> r == DeleteText(menus, f)
    ensures f.value.StringValue? && change.Type? ==> r == AddText(f, change.text)
    ensures f.value.StringValue? && change.Replace? ==> r == DeleteAndPasteText(menus, f, change.text)
  {
    ChangeText(menus, f, change)
  }

  /** The whole change happens on the innermost first text field. */
  lemma {:induction false} ChangeTextDelegates(menus: Menus, f: Field, change: ChangeTextType)
    ensures ChangeText(menus, f, change) == ChangeOwnText(menus, Innermost(f), change)
  {
    if |f.textFields| > 0 {
      ChangeTextDelegates(menus, f.textFields[0], change);
    }
  }

  /** A non-string value on the acted-on field throws before anything is pressed or typed. */
  lemma NonStringValueChangesNothing(menus: Menus, f: Field, change: ChangeTextType)
    requires !Innermost(f).value.StringValue?
    ensures ChangeText(menus, f, change) == Run([], Some(ElementErrors.InvalidKeyboardTypeActionNonStringValue))
  {
    ChangeTextDelegates(menus, f, change);
  }

  predicate NoDeleteKey(events: seq<Event>) {
    forall i | 0 <= i < |events| :: events[i] != TypeKey(Delete)
  }

  /** Clearing never types the delete key: the completion carrying it is dropped by `selectAllText`. */
  lemma ClearNeverTypesDelete(menus: Menus, f: Field)
    ensures NoDeleteKey(DeleteText(menus, f).events)
  {
    var focus := FocusKeyboard(f);
    var tail := [ShortPress(f.element)] + TapOnSelectAllIfPresent(menus, f, None);
    assert NoDeleteKey(tail);
    if focus.error.None? {
      assert DeleteText(menus, f).events == focus.events + tail;
    }
  }

  /** "Select All" is tapped exactly when focus succeeds, the value is a non-empty string and the item appears. */
  lemma SelectAllTappedWhen(menus: Menus, f: Field)
    ensures var r := SelectAllText(menus, f, None);
      TapSelectAll in r.events <==>
        FocusKeyboard(f).error.None? && f.value.StringValue? && |f.value.s| > 0 && menus.selectAllAppears
  {
    var focus := FocusKeyboard(f);
    var r := SelectAllText(menus, f, None);
    if focus.error.None? {
      assert r.events == focus.events + [ShortPress(f.element)] + TapOnSelectAllIfPresent(menus, f, None);
    }
  }

  /**
   * Replacing text: the pasteboard is set first; with focus, a missing
   * "Paste" item throws `failedToPasteNewText("paste")`, and "Allow Paste"
   * is tapped only when it appears.
   */
  lemma ReplaceSequence(menus: Menus, f: Field, text: string)
    ensures var r := DeleteAndPasteText(menus, f, text);
      |r.events| > 0 && r.events[0] == SetPasteboard(text)
    ensures var r := DeleteAndPasteText(menus, f, text);
      FocusKeyboard(f).error.None? && !menus.pasteAppears ==>
        r.error == Some(ElementErrors.FailedToPasteNewText("paste"))
    ensures var r := DeleteAndPasteText(menus, f, text);
      TapAllowPaste in r.events <==>
        FocusKeyboard(f).error.None? && menus.pasteAppears && menus.allowPasteAppears
    ensures var r := DeleteAndPasteText(menus, f, text);
      r.error.None? <==> FocusKeyboard(f).error.None? && menus.pasteAppears
  {
    var focus := FocusKeyboard(f);
    var select := SelectAllText(menus, f, None);
    var selectTail := [ShortPress(f.element)] + TapOnSelectAllIfPresent(menus, f, None);
    assert TapAllowPaste !in selectTail;
    assert TapAllowPaste !in focus.events;
    var r := DeleteAndPasteText(menus, f, text);
    if focus.error.None? {
      var paste := TapOnPasteText(menus, PressOnAllowPaste(menus));
      assert select.events == focus.events + selectTail;
      if menus.pasteAppears {
        assert r.events == [SetPasteboard(text)] + (select.events + paste.events);
        assert TapAllowPaste in r.events <==> TapAllowPaste in paste.events;
      } else {
        assert r.events == [SetPasteboard(text)] + select.events;
      }
    } else {
      assert r.events == [SetPasteboard(text)] + focus.events;
    }
  }

  /** A focused field holding text, with every menu item showing. */
  function ReadyField(e: ElementErrors.Element): Field {
    Field(e, true, true, true, StringValue("abc"), [])
  }

  /** As written, clearing such a field selects its text and stops there: nothing is deleted. */
  lemma ClearLeavesTextSelected(e: ElementErrors.Element)
    ensures var menus := Menus(true, true, true);
      ChangeText(menus, ReadyField(e), Clear) == Ok([ShortPress(e), TapSelectAll])
  {
  }

  /** `selectAllText` handing its completion on to `tapOnSelectAllIfPresent`, as its signature suggests. */
  function SelectAllTextPassingCompletion(menus: Menus, f: Field, completion: Option<seq<Event>>): Run {
    Then(FocusKeyboard(f), Ok([ShortPress(f.element)] + TapOnSelectAllIfPresent(menus, f, completion)))
  }

  /** `deleteText` over the corrected `selectAllText`. */
  function DeleteTextPassingCompletion(menus: Menus, f: Field): Run {
    SelectAllTextPassingCompletion(menus, f, Some([TypeKey(Delete)]))
  }

  /** With the completion passed on, clearing deletes exactly when "Select All" was tapped, right after the tap. */
  lemma CorrectedClearDeletesSelection(menus: Menus, f: Field)
    ensures var r := DeleteTextPassingCompletion(menus, f);
      TypeKey(Delete) in r.events <==> TapSelectAll in r.events
    ensures var r := DeleteTextPassingCompletion(menus, f);
      TapSelectAll in r.events ==>
        |r.events| >= 2 && r.events[|r.events| - 2] == TapSelectAll && r.events[|r.events| - 1] == TypeKey(Delete)
    ensures var r := DeleteTextPassingCompletion(menus, f);
      TapSelectAll in r.events <==>
        FocusKeyboard(f).error.None? && f.value.StringValue? && |f.value.s| > 0 && menus.selectAllAppears
  {
    var focus := FocusKeyboard(f);
    var r := DeleteTextPassingCompletion(menus, f);
    var tail := TapOnSelectAllIfPresent(menus, f, Some([TypeKey(Delete)]));
    assert TypeKey(Delete) !in focus.events && TapSelectAll !in focus.events;
    if focus.error.None? {
      assert r.events == focus.events + [ShortPress(f.element)] + tail;
    }
  }
}
