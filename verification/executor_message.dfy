/**
 * The messages the tester sends to the white-box executor inside the app,
 * and the description each one logs itself with.
 */
module ExecutorMessage {
  import opened Wrappers
  import opened Text
  import opened ElementErrors

  /** `Action.ActionSpeed`. */
  datatype ActionSpeed = Slow | Fast

  /** A `Date`, as seconds since the reference date. */
  type Date = real

  /** How Swift prints the values the descriptions interpolate. */
  datatype Printer = Printer(
    double: real -> string,          // a `Double` or `TimeInterval`
    date: Date -> string,            // a `Date`
    traits: seq<string> -> string)   // an `[AccessibilityTrait]`

  datatype Message =
    | ReloadReactNative
    | DeliverPayload(delayPayload: Option<bool>, url: Option<string>, sourceApp: Option<string>,
        notificationDataUrl: Option<string>, activityDataUrl: Option<string>)
    | ShakeDevice
    | CaptureViewHierarchy(viewHierarchyUrl: Option<string>)
    | SetRecordingState(recordingPath: Option<string>, samplingInterval: Option<real>)
    | WaitUntilReady
    | SetSyncSettings(maxTimerWait: Option<real>, blacklistUrls: Option<seq<string>>, disabled: Option<bool>)
    | SetDatePicker(toDate: Date, onElement: Element)
    | PerformAccessibilityAction(actionName: string, onElement: Element)
    | VerifyVisibility(ofElement: Element, withThreshold: real)
    | VerifyText(ofElement: Element, equals: string)
    | IsFocused(element: Element)
    | FindElementsByText(text: string, isRegex: bool)
    | FindElementsByType(typeName: string)
    | FindElementsByTraits(traits: seq<string>)
    | RequestCurrentStatus
    | LongPressAndDrag(duration: real, normalizedPositionX: Option<real>, normalizedPositionY: Option<real>,
        targetElement: Element, normalizedTargetPositionX: Option<real>, normalizedTargetPositionY: Option<real>,
        speed: Option<ActionSpeed>, holdDuration: Option<real>, onElement: Element)
    | RequestAttributes(ofElements: seq<Element>)
    | EvaluateJavaScript(webViewElement: Element, script: string)

  datatype Kind =
    | ReloadKind | PayloadKind | ShakeKind | HierarchyKind | RecordingKind | ReadyKind | SyncKind
    | DatePickerKind | AccessibilityKind | VisibilityKind | TextKind | FocusedKind | ByTextKind
    | ByTypeKind | ByTraitsKind | StatusKind | DragKind | AttributesKind | JavaScriptKind

  function KindOf(m: Message): Kind {
    match m
    case ReloadReactNative => ReloadKind
    case DeliverPayload(_, _, _, _, _) => PayloadKind
    case ShakeDevice => ShakeKind
    case CaptureViewHierarchy(_) => HierarchyKind
    case SetRecordingState(_, _) => RecordingKind
    case WaitUntilReady => ReadyKind
    case SetSyncSettings(_, _, _) => SyncKind
    case SetDatePicker(_, _) => DatePickerKind
    case PerformAccessibilityAction(_, _) => AccessibilityKind
    case VerifyVisibility(_, _) => VisibilityKind
    case VerifyText(_, _) => TextKind
    case IsFocused(_) => FocusedKind
    case FindElementsByText(_, _) => ByTextKind
    case FindElementsByType(_) => ByTypeKind
    case FindElementsByTraits(_) => ByTraitsKind
    case RequestCurrentStatus => StatusKind
    case LongPressAndDrag(_, _, _, _, _, _, _, _, _) => DragKind
    case RequestAttributes(_) => AttributesKind
    case EvaluateJavaScript(_, _) => JavaScriptKind
  }

  /** The opening words of each case's description. */
  function Opening(k: Kind): string {
    match k
    case ReloadKind => "reload react native"
    case PayloadKind => "deliver payload"
    case ShakeKind => "shake device"
    case HierarchyKind => "capture view hierarchy"
    case RecordingKind => "request for setting recording state"
    case ReadyKind => "wait until app is ready"
    case SyncKind => "set synchronization settings"
    case DatePickerKind => "set picker date"
    case AccessibilityKind => "perform custom accessibility action"
    case VisibilityKind => "expect to be visible"
    case TextKind => "expect text to equal"
    case FocusedKind => "request boolean value"
    case ByTextKind => "match elements by text"
    case ByTypeKind => "match elements by type"
    case ByTraitsKind => "match elements by traits"
    case StatusKind => "request current app status"
    case DragKind => "long press and drag element"
    case AttributesKind => "request attributes"
    case JavaScriptKind => "evaluate javascript"
  }

  /** `String(describing:)` of an optional string. */
  function ShowOptionalString(s: Option<string>): string {
    ShowOptional(if s.Some? then Some(Quoted(s.value)) else None)
  }

  /** `String(describing:)` of an optional `Double`. */
  function ShowOptionalDouble(p: Printer, d: Option<real>): string {
    ShowOptional(if d.Some? then Some(p.double(d.value)) else None)
  }

  /** The rendered fields of the sync-settings description. */
  function TimerWaitField(p: Printer, m: Option<real>): string {
    "max-timer-wait: " + ShowOptionalDouble(p, m)
  }

  function BlacklistField(urls: Option<seq<string>>): string {
    "blacklist-urls: " + ShowOptional(if urls.Some? then Some(ShowStrings(urls.value)) else None)
  }

  function DisabledField(disabled: Option<bool>): string {
    "synchronization-disabled: " + ShowOptional(if disabled.Some? then Some(ShowBool(disabled.value)) else None)
  }

  /** The identifiers (not the clean ones) of the elements, in order. */
  function Identifiers(elements: seq<Element>): (ids: seq<string>)
    ensures |ids| == |elements|
    ensures forall i | 0 <= i < |ids| :: ids[i] == elements[i].identifier
  {
    seq(|elements|, i requires 0 <= i < |elements| => elements[i].identifier)
  }

  /** How the text search shows whether the text is a regular expression. */
  function RegexFlag(isRegex: bool): string {
    " (is-regex: " + ShowBool(isRegex) + ")"
  }

  const ElementIdentifier := "for element with identifier: "

  /** Everything after the opening words. */
  function Details(p: Printer, m: Message): string {
    match m
    case ReloadReactNative => ""
    case DeliverPayload(_, _, _, _, _) => ""
    case ShakeDevice => ""
    case CaptureViewHierarchy(url) =>
      " (with destination: " + ShowOptionalString(url) + ")"
    case SetRecordingState(path, interval) =>
      " with recording path: " + "`" + ShowOptionalString(path) + "` and " +
      "sampling interval: " + "`" + ShowOptionalDouble(p, interval)
    case WaitUntilReady => ""
    case SetSyncSettings(wait, urls, disabled) =>
      " (" + TimerWaitField(p, wait) + ", " + BlacklistField(urls) + ", " + DisabledField(disabled) + ")"
    case SetDatePicker(toDate, e) =>
      " (to: " + p.date(toDate) + ", " + "on element with identifier: " + Ticked(e.cleanIdentifier)
    case PerformAccessibilityAction(name, e) =>
      " with name " + Ticked(name) + " " + "on element " + Ticked(e.cleanIdentifier)
    case VerifyVisibility(e, threshold) =>
      " with threshold of " + p.double(threshold) + "%, " + ElementIdentifier + Ticked(e.cleanIdentifier)
    case VerifyText(e, equals) =>
      " " + Ticked(equals) + ", " + ElementIdentifier + Ticked(e.cleanIdentifier)
    case IsFocused(e) =>
      " of focused state, for element with " + "identifier: " + Ticked(e.cleanIdentifier)
    case FindElementsByText(text, isRegex) =>
      ": " + Ticked(text) + RegexFlag(isRegex)
    case FindElementsByType(typeName) =>
      ": " + Ticked(typeName)
    case FindElementsByTraits(traits) =>
      ": " + p.traits(traits)
    case RequestCurrentStatus => ""
    case LongPressAndDrag(_, _, _, _, _, _, _, _, e) =>
      " with identifier: " + Ticked(e.cleanIdentifier)
    case RequestAttributes(elements) =>
      " for elements with identifiers: " + ShowStrings(Identifiers(elements))
    case EvaluateJavaScript(e, _) =>
      " on web view element with identifier: " + Ticked(e.cleanIdentifier)
  }

  /** `description`: each case's opening words followed by its details. */
  function Describe(p: Printer, m: Message): string {
    Opening(KindOf(m)) + Details(p, m)
  }

  /** The character at `i`, or a space past the end. */
  function CharAt(d: string, i: nat): char {
    if i < |d| then d[i] else ' '
  }

  /** Reads the case back from the characters where the openings first differ. */
  function ParseKind(d: string): Option<Kind> {
    match CharAt(d, 0)
    case 'c' => Some(HierarchyKind)
    case 'd' => Some(PayloadKind)
    case 'l' => Some(DragKind)
    case 'p' => Some(AccessibilityKind)
    case 'w' => Some(ReadyKind)
    case 'r' =>
      if CharAt(d, 2) == 'l' then Some(ReloadKind)
      else if CharAt(d, 8) == 'a' then Some(AttributesKind)
      else if CharAt(d, 8) == 'b' then Some(FocusedKind)
      else if CharAt(d, 8) == 'c' then Some(StatusKind)
      else if CharAt(d, 8) == 'f' then Some(RecordingKind)
      else None
    case 's' =>
      if CharAt(d, 1) == 'h' then Some(ShakeKind)
      else if CharAt(d, 4) == 'p' then Some(DatePickerKind)
      else if CharAt(d, 4) == 's' then Some(SyncKind)
      else None
    case 'e' =>
      if CharAt(d, 1) == 'v' then Some(JavaScriptKind)
      else if CharAt(d, 8) == 'o' then Some(VisibilityKind)
      else if CharAt(d, 8) == 'e' then Some(TextKind)
      else None
    case 'm' =>
      if CharAt(d, 19) == 'e' then Some(ByTextKind)
      else if CharAt(d, 19) == 'y' then Some(ByTypeKind)
      else if CharAt(d, 19) == 'r' then Some(ByTraitsKind)
      else None
    case _ => None
  }

  /** ParseKind reads back the openings that start with "r". */
  lemma ParseRequestOpening(k: Kind, rest: string)
    requires k in {ReloadKind, RecordingKind, FocusedKind, StatusKind, AttributesKind}
    ensures ParseKind(Opening(k) + rest) == Some(k)
  {
    var d := Opening(k) + rest;
    match k
    case ReloadKind => assert CharAt(d, 0) == 'r' && CharAt(d, 2) == 'l' && CharAt(d, 8) == 'e';
    case RecordingKind => assert CharAt(d, 0) == 'r' && CharAt(d, 2) == 'q' && CharAt(d, 8) == 'f';
    case FocusedKind => assert CharAt(d, 0) == 'r' && CharAt(d, 2) == 'q' && CharAt(d, 8) == 'b';
    case StatusKind => assert CharAt(d, 0) == 'r' && CharAt(d, 2) == 'q' && CharAt(d, 8) == 'c';
    case AttributesKind => assert CharAt(d, 0) == 'r' && CharAt(d, 2) == 'q' && CharAt(d, 8) == 'a';
  }

  /** ParseKind reads back the openings that start with "s". */
  lemma ParseSetOpening(k: Kind, rest: string)
    requires k in {ShakeKind, SyncKind, DatePickerKind}
    ensures ParseKind(Opening(k) + rest) == Some(k)
  {
    var d := Opening(k) + rest;
    match k
    case ShakeKind => assert CharAt(d, 0) == 's' && CharAt(d, 1) == 'h' && CharAt(d, 4) == 'e';
    case SyncKind => assert CharAt(d, 0) == 's' && CharAt(d, 1) == 'e' && CharAt(d, 4) == 's';
    case DatePickerKind => assert CharAt(d, 0) == 's' && CharAt(d, 1) == 'e' && CharAt(d, 4) == 'p';
  }

  /** ParseKind reads back the openings that start with "e". */
  lemma ParseExpectOpening(k: Kind, rest: string)
    requires k in {VisibilityKind, TextKind, JavaScriptKind}
    ensures ParseKind(Opening(k) + rest) == Some(k)
  {
    var d := Opening(k) + rest;
    match k
    case VisibilityKind => assert CharAt(d, 0) == 'e' && CharAt(d, 1) == 'x' && CharAt(d, 8) == 'o';
    case TextKind => assert CharAt(d, 0) == 'e' && CharAt(d, 1) == 'x' && CharAt(d, 8) == 'e';
    case JavaScriptKind => assert CharAt(d, 0) == 'e' && CharAt(d, 1) == 'v' && CharAt(d, 8) == ' ';
  }

  /** ParseKind reads back the three query openings. */
  lemma ParseMatchOpening(k: Kind, rest: string)
    requires k in {ByTextKind, ByTypeKind, ByTraitsKind}
    ensures ParseKind(Opening(k) + rest) == Some(k)
  {
    var d := Opening(k) + rest;
    match k
    case ByTextKind => assert CharAt(d, 0) == 'm' && CharAt(d, 19) == 'e';
    case ByTypeKind => assert CharAt(d, 0) == 'm' && CharAt(d, 19) == 'y';
    case ByTraitsKind => assert CharAt(d, 0) == 'm' && CharAt(d, 19) == 'r';
  }

  /** ParseKind reads back the openings whose first letter alone decides. */
  lemma ParseSingleOpening(k: Kind, rest: string)
    requires k in {PayloadKind, HierarchyKind, ReadyKind, AccessibilityKind, DragKind}
    ensures ParseKind(Opening(k) + rest) == Some(k)
  {
    var d := Opening(k) + rest;
    match k
    case PayloadKind => assert CharAt(d, 0) == 'd';
    case HierarchyKind => assert CharAt(d, 0) == 'c';
    case ReadyKind => assert CharAt(d, 0) == 'w';
    case AccessibilityKind => assert CharAt(d, 0) == 'p';
    case DragKind => assert CharAt(d, 0) == 'l';
  }

  /** The opening words alone decide the case, whatever follows them. */
  lemma ParseOpening(k: Kind, rest: string)
    ensures ParseKind(Opening(k) + rest) == Some(k)
  {
    if k in {ReloadKind, RecordingKind, FocusedKind, StatusKind, AttributesKind} {
      ParseRequestOpening(k, rest);
    } else if k in {ShakeKind, SyncKind, DatePickerKind} {
      ParseSetOpening(k, rest);
    } else if k in {VisibilityKind, TextKind, JavaScriptKind} {
      ParseExpectOpening(k, rest);
    } else if k in {ByTextKind, ByTypeKind, ByTraitsKind} {
      ParseMatchOpening(k, rest);
    } else {
      ParseSingleOpening(k, rest);
    }
  }

  /** Every description names its case: the case can be read back from the text. */
  lemma ParseDescribe(p: Printer, m: Message)
    ensures ParseKind(Describe(p, m)) == Some(KindOf(m))
  {
    ParseOpening(KindOf(m), Details(p, m));
  }

  /** Messages of different cases never log the same description, however values print. */
  lemma DescriptionsSeparateCases(p: Printer, q: Printer, m1: Message, m2: Message)
    requires Describe(p, m1) == Describe(q, m2)
    ensures KindOf(m1) == KindOf(m2)
  {
    ParseDescribe(p, m1);
    ParseDescribe(q, m2);
  }

  /** The text search's description ends in exactly `(is-regex: true)` or `(is-regex: false)`. */
  lemma IsRegexRendered(p: Printer, text: string, isRegex: bool)
    ensures IsSuffix(RegexFlag(true), Describe(p, FindElementsByText(text, isRegex))) <==> isRegex
    ensures IsSuffix(RegexFlag(false), Describe(p, FindElementsByText(text, isRegex))) <==> !isRegex
  {
    var front := Opening(ByTextKind) + (": " + Ticked(text));
    assert Describe(p, FindElementsByText(text, isRegex)) == front + RegexFlag(isRegex) by {
      assert Details(p, FindElementsByText(text, isRegex)) == ": " + Ticked(text) + RegexFlag(isRegex);
    }
    FlagEndsOnly(front, isRegex);
  }

  /** Whatever comes before it, a rendered flag is the only flag the text ends with. */
  lemma FlagEndsOnly(front: string, isRegex: bool)
    ensures IsSuffix(RegexFlag(isRegex), front + RegexFlag(isRegex))
    ensures !IsSuffix(RegexFlag(!isRegex), front + RegexFlag(isRegex))
  {
    var flag := RegexFlag(isRegex);
    var other := RegexFlag(!isRegex);
    assert RegexFlag(true) == " (is-regex: " + "true" + ")";
    assert RegexFlag(false) == " (is-regex: " + "false" + ")";
    SuffixOfConcat(front, flag);
    FlagsDiffer();
    if |other| <= |flag| {
      SuffixThrough(front, flag, other);
    } else {
      LongerNotSuffix(other, flag, front);
    }
  }

  /** Neither flag ends the other. */
  lemma FlagsDiffer()
    ensures !IsSuffix(RegexFlag(true), RegexFlag(false))
    ensures !IsSuffix(RegexFlag(false), RegexFlag(true))
  {
    var yes := RegexFlag(true);
    var no := RegexFlag(false);
    assert yes == " (is-regex: " + "true" + ")";
    assert |yes| == 17 && |no| == 18;
    assert yes[12] == 't';
    assert no[13] == 'a';
    DifferAtEnd(yes, no, 4);
  }

  /** The payload description is the same whatever the five fields and however values print. */
  lemma DeliverPayloadDescriptionIsConstant(p: Printer, m: Message)
    requires m.DeliverPayload?
    ensures Describe(p, m) == "deliver payload"
  {
  }

  /** The long-press-and-drag description depends on the dragged element's clean identifier alone, and determines it. */
  lemma LongPressDescriptionDependsOnElementOnly(p: Printer, q: Printer, m1: Message, m2: Message)
    requires m1.LongPressAndDrag? && m2.LongPressAndDrag?
    ensures Describe(p, m1) == Describe(q, m2) <==>
      m1.onElement.cleanIdentifier == m2.onElement.cleanIdentifier
  {
    if Describe(p, m1) == Describe(q, m2) {
      CancelPrefix(Opening(DragKind), Details(p, m1), Details(q, m2));
      var t1 := Ticked(m1.onElement.cleanIdentifier);
      var t2 := Ticked(m2.onElement.cleanIdentifier);
      CancelPrefix(" with identifier: ", t1, t2);
      CancelSurroundings("`", m1.onElement.cleanIdentifier, m2.onElement.cleanIdentifier, "`");
    }
  }

  /** The script never affects the JavaScript description: only the web view's clean identifier does. */
  lemma JavaScriptDescriptionOmitsScript(p: Printer, e: Element, script1: string, script2: string)
    ensures Describe(p, EvaluateJavaScript(e, script1)) == Describe(p, EvaluateJavaScript(e, script2))
    ensures IsSuffix(Ticked(e.cleanIdentifier), Describe(p, EvaluateJavaScript(e, script1)))
  {
    var t := Ticked(e.cleanIdentifier);
    var h := " on web view element with identifier: ";
    SuffixOfConcat(h, t);
    SuffixThrough(Opening(JavaScriptKind), h + t, t);
  }

  /** The sync-settings description shows each of the three optional fields. */
  lemma SyncSettingsDescriptionShowsAllFields(p: Printer, wait: Option<real>, urls: Option<seq<string>>, disabled: Option<bool>)
    ensures var d := Describe(p, SetSyncSettings(wait, urls, disabled));
      Contains(d, TimerWaitField(p, wait)) && Contains(d, BlacklistField(urls)) && Contains(d, DisabledField(disabled))
  {
    var t := TimerWaitField(p, wait);
    var b := BlacklistField(urls);
    var c := DisabledField(disabled);
    var o := Opening(SyncKind);
    var details := Details(p, SetSyncSettings(wait, urls, disabled));
    assert details == " (" + t + ", " + b + ", " + c + ")";
    ContainsEach(" (", t, ", ", b, ", ", c, ")");
    ContainsInTail(o, details, t);
    ContainsInTail(o, details, b);
    ContainsInTail(o, details, c);
  }

  /** Whether a message is about one element, and which. */
  function Subject(m: Message): Option<Element> {
    match m
    case SetDatePicker(_, e) => Some(e)
    case PerformAccessibilityAction(_, e) => Some(e)
    case VerifyVisibility(e, _) => Some(e)
    case VerifyText(e, _) => Some(e)
    case IsFocused(e) => Some(e)
    case LongPressAndDrag(_, _, _, _, _, _, _, _, e) => Some(e)
    case EvaluateJavaScript(e, _) => Some(e)
    case _ => None
  }

  /** The details of a message about one element end by quoting that element's clean identifier. */
  lemma DetailsEndWithSubject(p: Printer, m: Message)
    requires Subject(m).Some?
    ensures IsSuffix(Ticked(Subject(m).value.cleanIdentifier), Details(p, m))
  {
    var t := Ticked(Subject(m).value.cleanIdentifier);
    match m
    case SetDatePicker(toDate, e) =>
      SuffixOfConcat(" (to: " + p.date(toDate) + ", " + "on element with identifier: ", t);
    case PerformAccessibilityAction(name, e) =>
      SuffixOfConcat(" with name " + Ticked(name) + " " + "on element ", t);
    case VerifyVisibility(e, threshold) =>
      SuffixOfConcat(" with threshold of " + p.double(threshold) + "%, " + ElementIdentifier, t);
    case VerifyText(e, equals) =>
      SuffixOfConcat(" " + Ticked(equals) + ", " + ElementIdentifier, t);
    case IsFocused(e) =>
      SuffixOfConcat(" of focused state, for element with " + "identifier: ", t);
    case LongPressAndDrag(_, _, _, _, _, _, _, _, e) =>
      SuffixOfConcat(" with identifier: ", t);
    case EvaluateJavaScript(e, _) =>
      SuffixOfConcat(" on web view element with identifier: ", t);
  }

  /** A message about one element ends by quoting that element's clean identifier. */
  lemma SubjectQuotedLast(p: Printer, m: Message)
    requires Subject(m).Some?
    ensures IsSuffix(Ticked(Subject(m).value.cleanIdentifier), Describe(p, m))
  {
    DetailsEndWithSubject(p, m);
    SuffixThrough(Opening(KindOf(m)), Details(p, m), Ticked(Subject(m).value.cleanIdentifier));
  }

  /** The attributes request lists the elements' plain identifiers, in order. */
  lemma AttributesDescriptionListsIdentifiers(p: Printer, elements: seq<Element>)
    ensures IsSuffix(ShowStrings(Identifiers(elements)), Describe(p, RequestAttributes(elements)))
  {
    var lead := " for elements with identifiers: ";
    var shown := ShowStrings(Identifiers(elements));
    assert Describe(p, RequestAttributes(elements)) == Opening(AttributesKind) + (lead + shown) by {
      assert Details(p, RequestAttributes(elements)) == lead + shown;
    }
    EndsWithLast(Opening(AttributesKind), lead, shown);
  }

  /** The cases without parameters log fixed texts. */
  lemma ParameterlessDescriptions(p: Printer)
    ensures Describe(p, ReloadReactNative) == "reload react native"
    ensures Describe(p, ShakeDevice) == "shake device"
    ensures Describe(p, WaitUntilReady) == "wait until app is ready"
    ensures Describe(p, RequestCurrentStatus) == "request current app status"
  {
  }
}
