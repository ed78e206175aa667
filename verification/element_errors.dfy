/**
 * The errors thrown by the tester's element extensions (keyboard, scroll,
 * script evaluation) and the text each one describes itself with.
 */
module ElementErrors {
  import opened Wrappers
  import opened Text

  /** What an error message can show of an element. */
  datatype Element = Element(
    identifier: string,
    cleanIdentifier: string,
    existing: bool,              // `XCUIElement.exists`
    debugDescription: string)

  datatype Error =
    | InvalidKeyboardTypeActionNonStringValue
    | FailedToFocusKeyboardOnElement(element: Element)
    | FailedToPasteNewText(onAction: string)
    | ElementNotHittable(element: Element)
    | ElementNotScrollable(element: Element)
    | FailedToScrollToElement(element: Element)
    | FailedToEvaluateScript(element: Element, host: Element, script: string, args: seq<string>)

  /** How the hit and scroll messages name an element: its identifier if it exists, its debug text otherwise. */
  function ShownIdentifier(e: Element): string {
    if e.existing then e.cleanIdentifier else e.debugDescription
  }

  /** A value set in backticks, as the messages quote identifiers and code. */
  function Ticked(s: string): string {
    "`" + s + "`"
  }

  // The opening words of each message.
  const NonStringOpening := "Cannot type text value"
  const FocusOpening := "Failed to focus on element"
  const PasteOpening := "Failed to paste new text"
  const HitOpening := "Failed to hit element"
  const ScrollOpening := "Failed to scroll element"
  const ScrollToOpening := "Failed to scroll to element"
  const ScriptOpening := "Failed to evaluate JS code"

  /** `description`: each case's opening words followed by its details. */
  function Describe(err: Error): string {
    Opening(KindOf(err)) + Details(err)
  }

  /** Everything after the opening words. */
  function Details(err: Error): string {
    match err
    case InvalidKeyboardTypeActionNonStringValue =>
      " into a view without a string value"
    case FailedToFocusKeyboardOnElement(element) =>
      " with the keyboard (element identifier: " + Ticked(element.cleanIdentifier) + ")"
    case FailedToPasteNewText(onAction) =>
      " on text input, on action: " + onAction
    case ElementNotHittable(element) =>
      " with identifier " + Ticked(ShownIdentifier(element)) + ", element is not hittable"
    case ElementNotScrollable(element) =>
      " with identifier " + Ticked(ShownIdentifier(element)) + ", element is not scrollable"
    case FailedToScrollToElement(element) =>
      " with identifier " + Ticked(ShownIdentifier(element))
    case FailedToEvaluateScript(element, host, script, args) =>
      " on element: " + Ticked(element.debugDescription) +
      " with hosting web-view: " + Ticked(host.debugDescription) +
      ", script: " + Ticked(script) + ", args: " + Ticked(ShowStrings(args))
  }

  datatype Kind =
    | NonStringValue | FocusKind | PasteKind | NotHittableKind | NotScrollableKind
    | ScrollToKind | ScriptKind

  function KindOf(err: Error): Kind {
    match err
    case InvalidKeyboardTypeActionNonStringValue => NonStringValue
    case FailedToFocusKeyboardOnElement(_) => FocusKind
    case FailedToPasteNewText(_) => PasteKind
    case ElementNotHittable(_) => NotHittableKind
    case ElementNotScrollable(_) => NotScrollableKind
    case FailedToScrollToElement(_) => ScrollToKind
    case FailedToEvaluateScript(_, _, _, _) => ScriptKind
  }

  /** Reads the error case back from the opening words of a message. */
  function ParseKind(d: string): Option<Kind> {
    if IsPrefix(NonStringOpening, d) then Some(NonStringValue)
    else if IsPrefix(FocusOpening, d) then Some(FocusKind)
    else if IsPrefix(PasteOpening, d) then Some(PasteKind)
    else if IsPrefix(HitOpening, d) then Some(NotHittableKind)
    else if IsPrefix(ScrollOpening, d) then Some(NotScrollableKind)
    else if IsPrefix(ScrollToOpening, d) then Some(ScrollToKind)
    else if IsPrefix(ScriptOpening, d) then Some(ScriptKind)
    else None
  }

  /** The opening words of each case's message. */
  function Opening(k: Kind): string {
    match k
    case NonStringValue => NonStringOpening
    case FocusKind => FocusOpening
    case PasteKind => PasteOpening
    case NotHittableKind => HitOpening
    case NotScrollableKind => ScrollOpening
    case ScrollToKind => ScrollToOpening
    case ScriptKind => ScriptOpening
  }

  /** No opening begins another one, so a message's opening names its case. */
  lemma ParseOpening(k: Kind, rest: string)
    ensures ParseKind(Opening(k) + rest) == Some(k)
  {
    PrefixOfConcat(Opening(k), rest);
    match k
    case NonStringValue =>
    case FocusKind =>
      DifferAt(NonStringOpening, FocusOpening, rest, 0);
    case PasteKind =>
      DifferAt(NonStringOpening, PasteOpening, rest, 0);
      DifferAt(FocusOpening, PasteOpening, rest, 10);
    case NotHittableKind =>
      DifferAt(NonStringOpening, HitOpening, rest, 0);
      DifferAt(FocusOpening, HitOpening, rest, 10);
      DifferAt(PasteOpening, HitOpening, rest, 10);
    case NotScrollableKind =>
      DifferAt(NonStringOpening, ScrollOpening, rest, 0);
      DifferAt(FocusOpening, ScrollOpening, rest, 10);
      DifferAt(PasteOpening, ScrollOpening, rest, 10);
      DifferAt(HitOpening, ScrollOpening, rest, 10);
    case ScrollToKind =>
      DifferAt(NonStringOpening, ScrollToOpening, rest, 0);
      DifferAt(FocusOpening, ScrollToOpening, rest, 10);
      DifferAt(PasteOpening, ScrollToOpening, rest, 10);
      DifferAt(HitOpening, ScrollToOpening, rest, 10);
      DifferAt(ScrollOpening, ScrollToOpening, rest, 17);
    case ScriptKind =>
      DifferAt(NonStringOpening, ScriptOpening, rest, 0);
      DifferAt(FocusOpening, ScriptOpening, rest, 10);
      DifferAt(PasteOpening, ScriptOpening, rest, 10);
      DifferAt(HitOpening, ScriptOpening, rest, 10);
      DifferAt(ScrollOpening, ScriptOpening, rest, 10);
      DifferAt(ScrollToOpening, ScriptOpening, rest, 10);
  }

  /** Every message names its case: the case can be read back from the text. */
  lemma ParseDescribe(err: Error)
    ensures ParseKind(Describe(err)) == Some(KindOf(err))
  {
    ParseOpening(KindOf(err), Details(err));
  }

  /** Different cases never share a message. */
  lemma DescriptionsSeparateCases(e1: Error, e2: Error)
    requires Describe(e1) == Describe(e2)
    ensures KindOf(e1) == KindOf(e2)
  {
    ParseDescribe(e1);
    ParseDescribe(e2);
  }

  /** The hit and scroll messages quote the element's identifier when it exists and its debug text otherwise. */
  lemma HitAndScrollShowIdentifier(e: Element)
    ensures Contains(Describe(ElementNotHittable(e)), Ticked(ShownIdentifier(e)))
    ensures Contains(Describe(ElementNotScrollable(e)), Ticked(ShownIdentifier(e)))
    ensures Contains(Describe(FailedToScrollToElement(e)), Ticked(ShownIdentifier(e)))
  {
    var shown := Ticked(ShownIdentifier(e));
    ContainsMiddle(" with identifier ", shown, ", element is not hittable");
    ContainsInTail(HitOpening, Details(ElementNotHittable(e)), shown);
    ContainsMiddle(" with identifier ", shown, ", element is not scrollable");
    ContainsInTail(ScrollOpening, Details(ElementNotScrollable(e)), shown);
    assert Details(FailedToScrollToElement(e)) == " with identifier " + shown + "";
    ContainsMiddle(" with identifier ", shown, "");
    ContainsInTail(ScrollToOpening, Details(FailedToScrollToElement(e)), shown);
  }

  /** The hit message depends on the element through the shown identifier alone, and determines it. */
  lemma HitMessageDeterminesShownIdentifier(e1: Element, e2: Element)
    ensures Describe(ElementNotHittable(e1)) == Describe(ElementNotHittable(e2)) <==>
      ShownIdentifier(e1) == ShownIdentifier(e2)
  {
    if Describe(ElementNotHittable(e1)) == Describe(ElementNotHittable(e2)) {
      var d1 := Details(ElementNotHittable(e1));
      var d2 := Details(ElementNotHittable(e2));
      assert HitOpening + d1 + "" == HitOpening + d2 + "";
      CancelSurroundings(HitOpening, d1, d2, "");
      CancelSurroundings(" with identifier ", Ticked(ShownIdentifier(e1)),
        Ticked(ShownIdentifier(e2)), ", element is not hittable");
      CancelSurroundings("`", ShownIdentifier(e1), ShownIdentifier(e2), "`");
    }
  }

  /** The focus message quotes the clean identifier whether or not the element exists. */
  lemma FocusMessageUsesCleanIdentifier(e1: Element, e2: Element)
    ensures Contains(Describe(FailedToFocusKeyboardOnElement(e1)), Ticked(e1.cleanIdentifier))
    ensures e1.cleanIdentifier == e2.cleanIdentifier ==>
      Describe(FailedToFocusKeyboardOnElement(e1)) == Describe(FailedToFocusKeyboardOnElement(e2))
  {
    ContainsMiddle(" with the keyboard (element identifier: ", Ticked(e1.cleanIdentifier), ")");
    ContainsInTail(FocusOpening, Details(FailedToFocusKeyboardOnElement(e1)), Ticked(e1.cleanIdentifier));
  }

  /** The paste message carries the failing action verbatim. */
  lemma PasteMessageNamesAction(onAction: string)
    ensures Contains(Describe(FailedToPasteNewText(onAction)), onAction)
  {
    assert Details(FailedToPasteNewText(onAction)) == " on text input, on action: " + onAction + "";
    ContainsMiddle(" on text input, on action: ", onAction, "");
    ContainsInTail(PasteOpening, Details(FailedToPasteNewText(onAction)), onAction);
  }

  /** The script message carries the script and the printed argument list. */
  lemma ScriptMessageNamesScriptAndArgs(element: Element, host: Element, script: string, args: seq<string>)
    ensures Contains(Describe(FailedToEvaluateScript(element, host, script, args)), Ticked(script))
    ensures Contains(Describe(FailedToEvaluateScript(element, host, script, args)), Ticked(ShowStrings(args)))
  {
    var err := FailedToEvaluateScript(element, host, script, args);
    var a := " on element: " + Ticked(element.debugDescription) +
      " with hosting web-view: " + Ticked(host.debugDescription) + ", script: ";
    var g := Ticked(ShowStrings(args));
    assert Details(err) == a + Ticked(script) + (", args: " + g);
    ContainsMiddle(a, Ticked(script), ", args: " + g);
    ContainsInTail(ScriptOpening, Details(err), Ticked(script));
    assert Details(err) == (a + Ticked(script) + ", args: ") + g + "";
    ContainsMiddle(a + Ticked(script) + ", args: ", g, "");
    ContainsInTail(ScriptOpening, Details(err), g);
  }
}
