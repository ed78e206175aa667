/**
 * The in-app dispatcher: routes each action received from the driver to
 * its handler and produces the one reply that carries the request's
 * `messageId`, or stops the process.
 *
 * The application is read through the oracle `App`; the transport, the
 * idle queue and the collaborators (app delegate proxy, recorder,
 * hierarchy dumper, web view) are reduced to the effects they are asked
 * to perform and to when the reply is sent.
 */
module Dispatcher {
  import opened Wrappers
  import opened Geometry
  import opened Params
  import opened Views
  import opened Resolver
  import opened Text
  import opened Recording
  import Sync

  // ----- routing -----

  datatype ActionKind =
    | ReloadReactNative | WaitUntilReady | ShakeDevice | GetAttributes
    | FindElementsByText | FindElementsByType | FindElementsByTraits
    | RequestCurrentStatus | DeliverPayload | SetDatePicker | PerformAccessibilityAction
    | SetSyncSettings | EvaluateJavaScript | LongPressAndDrag | VerifyVisibility
    | VerifyText | IsElementFocused | SetRecordingState | CaptureViewHierarchy

  /** The wire name of each action the switch handles. */
  function ActionName(k: ActionKind): string {
    match k
    case ReloadReactNative => "reloadReactNative"
    case WaitUntilReady => "waitUntilReady"
    case ShakeDevice => "shakeDevice"
    case GetAttributes => "getAttributes"
    case FindElementsByText => "findElementsByText"
    case FindElementsByType => "findElementsByType"
    case FindElementsByTraits => "findElementsByTraits"
    case RequestCurrentStatus => "requestCurrentStatus"
    case DeliverPayload => "deliverPayload"
    case SetDatePicker => "setDatePicker"
    case PerformAccessibilityAction => "performAccessibilityAction"
    case SetSyncSettings => "setSyncSettings"
    case EvaluateJavaScript => "evaluateJavaScript"
    case LongPressAndDrag => "longPressAndDrag"
    case VerifyVisibility => "verifyVisibility"
    case VerifyText => "verifyText"
    case IsElementFocused => "isElementFocused"
    case SetRecordingState => "setRecordingState"
    case CaptureViewHierarchy => "captureViewHierarchy"
  }

  /** The switch over the action type; `None` is its `default` branch. */
  function Route(actionType: string): Option<ActionKind> {
    match actionType
    case "reloadReactNative" => Some(ReloadReactNative)
    case "waitUntilReady" => Some(WaitUntilReady)
    case "shakeDevice" => Some(ShakeDevice)
    case "getAttributes" => Some(GetAttributes)
    case "findElementsByText" => Some(FindElementsByText)
    case "findElementsByType" => Some(FindElementsByType)
    case "findElementsByTraits" => Some(FindElementsByTraits)
    case "requestCurrentStatus" => Some(RequestCurrentStatus)
    case "deliverPayload" => Some(DeliverPayload)
    case "setDatePicker" => Some(SetDatePicker)
    case "performAccessibilityAction" => Some(PerformAccessibilityAction)
    case "setSyncSettings" => Some(SetSyncSettings)
    case "evaluateJavaScript" => Some(EvaluateJavaScript)
    case "longPressAndDrag" => Some(LongPressAndDrag)
    case "verifyVisibility" => Some(VerifyVisibility)
    case "verifyText" => Some(VerifyText)
    case "isElementFocused" => Some(IsElementFocused)
    case "setRecordingState" => Some(SetRecordingState)
    case "captureViewHierarchy" => Some(CaptureViewHierarchy)
    case _ => None
  }

  /** Routing recognises exactly the nineteen wire names, each as its own action. */
  lemma RouteInvertsName(k: ActionKind, actionType: string)
    ensures Route(ActionName(k)) == Some(k)
    ensures Route(actionType).Some? ==> ActionName(Route(actionType).value) == actionType
  {
    RouteOfName(k);
    NameOfRoute(actionType);
  }

  lemma RouteOfName(k: ActionKind)
    ensures Route(ActionName(k)) == Some(k)
  {
    if IsElementAction(k) { RouteOfElementName(k); } else { RouteOfAppName(k); }
  }

  lemma RouteOfElementName(k: ActionKind)
    requires IsElementAction(k)
    ensures Route(ActionName(k)) == Some(k)
  {
  }

  lemma RouteOfAppName(k: ActionKind)
    requires !IsElementAction(k)
    ensures Route(ActionName(k)) == Some(k)
  {
  }

  lemma NameOfRoute(actionType: string)
    ensures Route(actionType).Some? ==> ActionName(Route(actionType).value) == actionType
  {
    // one branch per case of the switch
    match actionType
    case "reloadReactNative" => assert Route(actionType) == Some(ReloadReactNative);
    case "waitUntilReady" => assert Route(actionType) == Some(WaitUntilReady);
    case "shakeDevice" => assert Route(actionType) == Some(ShakeDevice);
    case "getAttributes" => assert Route(actionType) == Some(GetAttributes);
    case "findElementsByText" => assert Route(actionType) == Some(FindElementsByText);
    case "findElementsByType" => assert Route(actionType) == Some(FindElementsByType);
    case "findElementsByTraits" => assert Route(actionType) == Some(FindElementsByTraits);
    case "requestCurrentStatus" => assert Route(actionType) == Some(RequestCurrentStatus);
    case "deliverPayload" => assert Route(actionType) == Some(DeliverPayload);
    case "setDatePicker" => assert Route(actionType) == Some(SetDatePicker);
    case "performAccessibilityAction" => assert Route(actionType) == Some(PerformAccessibilityAction);
    case "setSyncSettings" => assert Route(actionType) == Some(SetSyncSettings);
    case "evaluateJavaScript" => assert Route(actionType) == Some(EvaluateJavaScript);
    case "longPressAndDrag" => assert Route(actionType) == Some(LongPressAndDrag);
    case "verifyVisibility" => assert Route(actionType) == Some(VerifyVisibility);
    case "verifyText" => assert Route(actionType) == Some(VerifyText);
    case "isElementFocused" => assert Route(actionType) == Some(IsElementFocused);
    case "setRecordingState" => assert Route(actionType) == Some(SetRecordingState);
    case "captureViewHierarchy" => assert Route(actionType) == Some(CaptureViewHierarchy);
    case _ => assert Route(actionType).None?;
  }


  /** The action of the reply each handler sends. */
  function ReplyAction(k: ActionKind): string {
    match k
    case ReloadReactNative => "reactNativeDidReload"
    case WaitUntilReady => "isReady"
    case ShakeDevice => "deviceDidShake"
    case GetAttributes => "attributes"
    case FindElementsByText => "elementsDidFound"
    case FindElementsByType => "elementsDidFound"
    case FindElementsByTraits => "elementsDidFound"
    case RequestCurrentStatus => "currentStatusResult"
    case DeliverPayload => "didDeliverPayload"
    case SetDatePicker => "didSetDatePicker"
    case PerformAccessibilityAction => "didPerformAccessibilityAction"
    case SetSyncSettings => "didSetSyncSettings"
    case EvaluateJavaScript => "didEvaluateJavaScript"
    case LongPressAndDrag => "didLongPressAndDrag"
    case VerifyVisibility => "didVerifyVisibility"
    case VerifyText => "didVerifyText"
    case IsElementFocused => "didElementFocusCheck"
    case SetRecordingState => "didSetRecordingState"
    case CaptureViewHierarchy => "didCaptureViewHierarchy"
  }

  predicate IsQuery(k: ActionKind) {
    k == FindElementsByText || k == FindElementsByType || k == FindElementsByTraits
  }

  /** The reply tells the driver which action answered, except among the three element queries. */
  lemma ReplyIdentifiesAction(k: ActionKind, k': ActionKind)
    requires ReplyAction(k) == ReplyAction(k')
    ensures k == k' || (IsQuery(k) && IsQuery(k'))
  {
    ReplyNamesSender(k);
    ReplyNamesSender(k');
  }

  /** The action a reply name stands for; the three element queries share theirs. */
  function ReplySender(action: string): Option<ActionKind> {
    match action
    case "reactNativeDidReload" => Some(ReloadReactNative)
    case "isReady" => Some(WaitUntilReady)
    case "deviceDidShake" => Some(ShakeDevice)
    case "attributes" => Some(GetAttributes)
    case "elementsDidFound" => Some(FindElementsByText)
    case "currentStatusResult" => Some(RequestCurrentStatus)
    case "didDeliverPayload" => Some(DeliverPayload)
    case "didSetDatePicker" => Some(SetDatePicker)
    case "didPerformAccessibilityAction" => Some(PerformAccessibilityAction)
    case "didSetSyncSettings" => Some(SetSyncSettings)
    case "didEvaluateJavaScript" => Some(EvaluateJavaScript)
    case "didLongPressAndDrag" => Some(LongPressAndDrag)
    case "didVerifyVisibility" => Some(VerifyVisibility)
    case "didVerifyText" => Some(VerifyText)
    case "didElementFocusCheck" => Some(IsElementFocused)
    case "didSetRecordingState" => Some(SetRecordingState)
    case "didCaptureViewHierarchy" => Some(CaptureViewHierarchy)
    case _ => None
  }

  lemma ReplyNamesSender(k: ActionKind)
    ensures ReplySender(ReplyAction(k)) == Some(if IsQuery(k) then FindElementsByText else k)
  {
    if IsElementAction(k) { ElementReplyNamesSender(k); } else { AppReplyNamesSender(k); }
  }

  lemma ElementReplyNamesSender(k: ActionKind)
    requires IsElementAction(k)
    ensures ReplySender(ReplyAction(k)) == Some(if IsQuery(k) then FindElementsByText else k)
  {
  }

  lemma AppReplyNamesSender(k: ActionKind)
    requires !IsElementAction(k)
    ensures ReplySender(ReplyAction(k)) == Some(k)
  {
  }

  // ----- the application as an oracle -----

  /** The result of `evaluateJavaScript` once the web view has finished loading. */
  datatype ScriptOutcome = ScriptOutcome(result: Option<string>, error: Option<string>)

  datatype App = App(
    runtime: Runtime,
    tree: Tree,
    isReactNativeApp: bool,
    datePickers: set<nat>,                   // views that are `UIDatePicker`s
    webViews: set<nat>,                      // views that are `WKWebView`s
    customActions: nat -> seq<string>,       // names of a view's accessibility custom actions
    isVisible: (nat, real) -> bool,          // dtx_isVisible(withPercent:)
    isFocused: nat -> bool,                  // dtx_isFocused()
    attributes: nat -> Value,                // dtx_attributes
    screenFrameText: nat -> string,          // NSCoder string of the bounds in screen coordinates
    status: Value,                           // the idle tracker's status report
    parsesAsUrl: string -> bool,             // URL(string:) succeeds
    runScript: (nat, string) -> ScriptOutcome,
    toSeconds: real -> real,                 // the hold-duration conversion
    hierarchyDumpDisabled: bool,             // -detoxDisableHierarchyDump
    dumpError: string -> Option<string>,     // the dumper's error for a destination, if any
    temporaryDirectory: string,
    uuid: string)

  predicate ValidApp(app: App) {
    WellFormed(app.tree)
  }

  // ----- outcome of one dispatch -----

  /** An `NSNumber?` after the NaN check: `Finite` for a number, `NaN` for not-a-number. */
  datatype Float = Finite(v: real) | NaN

  /** A normalized point; `None` on an axis is NaN, i.e. no preference on that axis. */
  datatype NormalizedPoint = NormalizedPoint(x: Option<real>, y: Option<real>)

  datatype DragGesture = DragGesture(
    element: nat, start: NormalizedPoint, duration: real,
    target: nat, targetPoint: NormalizedPoint, velocity: real, lastHoldDuration: real)

  datatype Effect =
    | ReloadApp
    | Shake
    | OpenUrl(url: string, sourceApp: Option<string>, delayUntilActive: bool)
    | DeliverNotification(dataUrl: string, delayUntilActive: bool)
    | DeliverActivity(dataUrl: string, delayUntilActive: bool)
    | AdjustDatePicker(view: nat, timeIntervalSince1970: real)
    | PerformCustomAction(view: nat, name: string)
    | Drag(gesture: DragGesture)
    | Record(event: RecordingEvent)
    | DumpViewHierarchy(path: string)

  /** When the reply leaves, relative to the handler. */
  datatype ReplyTime = Now | AfterReactNativeLoad | AfterWebViewLoad | AfterRecordingStopped

  datatype Dispatch = Dispatch(
    settings: Sync.SyncSettings,
    effects: seq<Effect>,
    workWhenIdle: bool,      // the handler's work is enqueued until the app is idle
    reply: Reply,
    replyWhen: ReplyTime,
    replyWhenIdle: bool)     // the reply goes through the idle-gated `safeSend`

  function Done(s: Sync.SyncSettings, effects: seq<Effect>, workWhenIdle: bool, reply: Reply): Dispatch {
    Dispatch(s, effects, workWhenIdle, reply, Now, true)
  }

  // ----- handler pieces -----

  /** `getNormalizedPoint`: an absent coordinate and a NaN one both become NaN. */
  function GetNormalizedPoint(x: Option<Float>, y: Option<Float>): (p: NormalizedPoint)
    ensures p.x.Some? <==> x.Some? && x.value.Finite?
    ensures p.x.Some? ==> p.x.value == x.value.v
    ensures p.y.Some? <==> y.Some? && y.value.Finite?
    ensures p.y.Some? ==> p.y.value == y.value.v
  {
    NormalizedPoint(
      if x.Some? && x.value.Finite? then Some(x.value.v) else None,
      if y.Some? && y.value.Finite? then Some(y.value.v) else None)
  }

  /** Present, non-NaN coordinates pass through unchanged. */
  lemma NormalizedPointKeepsNumbers(a: real, b: real)
    ensures GetNormalizedPoint(Some(Finite(a)), Some(Finite(b))) == NormalizedPoint(Some(a), Some(b))
  {
  }

  /** The number a normalized coordinate stands for: NaN when there is no preference. */
  function AsFloat(c: Option<real>): (f: Option<Float>)
    ensures f.Some?
    ensures f.value.Finite? <==> c.Some?
    ensures c.Some? ==> f.value.v == c.value
  {
    match c
    case Some(v) => Some(Finite(v))
    case None => Some(NaN)
  }

  /** Normalizing an already normalized point changes nothing. */
  lemma NormalizedPointIdempotent(x: Option<Float>, y: Option<Float>)
    ensures var p := GetNormalizedPoint(x, y);
      GetNormalizedPoint(AsFloat(p.x), AsFloat(p.y)) == p
  {
  }

  /** A conditionally cast number parameter as the long-press handler reads it. */
  function OptFloat(p: Params, key: string): Option<Float> {
    match OptNumber(p, key)
    case Some(n) => Some(Finite(n.doubleValue))
    case None => None
  }

  /** The drag velocity: 0.5 when absent, `slow` 0.1, `fast` 0.5, anything else traps. */
  function DecodeSpeed(speed: Option<string>): (r: Result<real, Fatal>)
    ensures r.Success? <==> speed.None? || speed.value in {"slow", "fast"}
    ensures r.Success? ==> r.value == (if speed == Some("slow") then 0.1 else 0.5)
    ensures r.Failure? ==> r.error == UnknownSpeed(speed.value)
  {
    match speed
    case None => Success(0.5)
    case Some(s) =>
      if s == "slow" then Success(0.1)
      else if s == "fast" then Success(0.5)
      else Failure(UnknownSpeed(s))
  }

  /** The final hold: the converted `holdDuration` when given, one second otherwise. */
  function HoldDuration(app: App, hold: Option<NumberValue>): (d: real)
    ensures hold.None? ==> d == 1.0
    ensures hold.Some? ==> d == app.toSeconds(hold.value.doubleValue)
  {
    match hold
    case Some(n) => app.toSeconds(n.doubleValue)
    case None => 1.0
  }

  /** Resolves the element named by an identifier parameter and a frame parameter. */
  function ResolveParam(app: App, params: Params, idKey: string, frameKey: string): (r: Result<nat, Fatal>)
    ensures r.Success? ==> r.value < |app.tree|
    ensures r.Success? ==>
      ForceString(params, idKey).Success? &&
      app.tree[r.value].identifier == Some(ForceString(params, idKey).value)
  {
    var identifier :- ForceString(params, idKey);
    var frame :- ForceDoubles(params, frameKey);
    FindElement(app.runtime, app.tree, identifier, frame)
  }

  /** The `deliverPayload` handler: `url` wins over a notification, which wins over an activity. */
  function DeliverPayloadEffect(app: App, params: Params): (r: Result<Effect, Fatal>)
    ensures OptString(params, "url").Some? ==>
      var url := OptString(params, "url").value;
      r == if app.parsesAsUrl(url) then
        Success(OpenUrl(url, OptString(params, "sourceApp"), OptBool(params, "delayPayload").GetOr(false)))
      else Failure(InvalidUrl(url))
    ensures OptString(params, "url").None? && OptString(params, "detoxUserNotificationDataURL").Some? ==>
      r == Success(DeliverNotification(OptString(params, "detoxUserNotificationDataURL").value,
                                       OptBool(params, "delayPayload").GetOr(false)))
    ensures (OptString(params, "url").None? && OptString(params, "detoxUserNotificationDataURL").None? &&
      OptString(params, "detoxUserActivityDataURL").Some?) ==>
      r == Success(DeliverActivity(OptString(params, "detoxUserActivityDataURL").value,
                                   OptBool(params, "delayPayload").GetOr(false)))
    ensures (OptString(params, "url").None? && OptString(params, "detoxUserNotificationDataURL").None? &&
      OptString(params, "detoxUserActivityDataURL").None?) ==> r == Failure(UnknownPayload)
  {
    var delay := OptBool(params, "delayPayload").GetOr(false);
    match OptString(params, "url")
    case Some(url) =>
      if app.parsesAsUrl(url) then Success(OpenUrl(url, OptString(params, "sourceApp"), delay))
      else Failure(InvalidUrl(url))
    case None =>
      match OptString(params, "detoxUserNotificationDataURL")
      case Some(path) => Success(DeliverNotification(path, delay))
      case None =>
        match OptString(params, "detoxUserActivityDataURL")
        case Some(path) => Success(DeliverActivity(path, delay))
        case None => Failure(UnknownPayload)
  }

  /** A request holding a URL opens it, whatever notification or activity it also carries. */
  lemma UrlWinsOverFiles(app: App, params: Params, params': Params)
    requires OptString(params, "url").Some?
    requires Lookup(params, "url") == Lookup(params', "url")
    requires Lookup(params, "sourceApp") == Lookup(params', "sourceApp")
    requires Lookup(params, "delayPayload") == Lookup(params', "delayPayload")
    ensures DeliverPayloadEffect(app, params) == DeliverPayloadEffect(app, params')
    ensures DeliverPayloadEffect(app, params).Success? ==> DeliverPayloadEffect(app, params).value.OpenUrl?
  {
  }

  /** Without a URL, a notification is delivered whatever activity the request also carries. */
  lemma NotificationWinsOverActivity(app: App, params: Params, params': Params)
    requires OptString(params, "url").None? && OptString(params, "detoxUserNotificationDataURL").Some?
    requires Lookup(params, "url") == Lookup(params', "url")
    requires Lookup(params, "detoxUserNotificationDataURL") == Lookup(params', "detoxUserNotificationDataURL")
    requires Lookup(params, "delayPayload") == Lookup(params', "delayPayload")
    ensures DeliverPayloadEffect(app, params) == DeliverPayloadEffect(app, params')
    ensures DeliverPayloadEffect(app, params).Success? && DeliverPayloadEffect(app, params).value.DeliverNotification?
  {
  }

  /** `appendingPathComponent` on a directory path. */
  function AppendPathComponent(dir: string, name: string): string {
    if |dir| > 0 && dir[|dir| - 1] == '/' then dir + name else dir + "/" + name
  }

  const HierarchyExtension: string := ".viewhierarchy"

  /** The dump destination: the given path, or a fresh file in the temporary directory. */
  function HierarchyPath(app: App, params: Params): string {
    match OptString(params, "viewHierarchyURL")
    case Some(path) => path
    case None => AppendPathComponent(app.temporaryDirectory, app.uuid + HierarchyExtension)
  }

  /**
   * The `captureViewHierarchy` handler: a destination whose last path
   * component lacks the `.viewhierarchy` extension fails the
   * precondition; otherwise the reply carries the dumper's error, the
   * disabled-dump message, or the path.
   */
  function CaptureHierarchy(app: App, params: Params): (r: Result<(seq<Effect>, Params), Fatal>)
    ensures var path := HierarchyPath(app, params);
      r.Failure? <==> !IsSuffix(HierarchyExtension, LastPathComponent(path))
    ensures r.Failure? ==> r.error == UnexpectedHierarchyPath(HierarchyPath(app, params))
    ensures r.Success? ==> (r.value.0 == [] <==> app.hierarchyDumpDisabled)
    ensures r.Success? && app.hierarchyDumpDisabled ==>
      r.value.1 == map["error" := Text("User ran process with -detoxDisableHierarchyDump YES")]
    ensures r.Success? && !app.hierarchyDumpDisabled ==>
      var path := HierarchyPath(app, params);
      r.value.0 == [DumpViewHierarchy(path)] &&
      r.value.1 == match app.dumpError(path)
        case Some(e) => map["error" := Text(e)]
        case None => map["path" := Text(path)]
  {
    var path := HierarchyPath(app, params);
    if !IsSuffix(HierarchyExtension, LastPathComponent(path)) then
      Failure(UnexpectedHierarchyPath(path))
    else if app.hierarchyDumpDisabled then
      Success(([], map["error" := Text("User ran process with -detoxDisableHierarchyDump YES")]))
    else
      Success(([DumpViewHierarchy(path)],
        match app.dumpError(path)
        case Some(e) => map["error" := Text(e)]
        case None => map["path" := Text(path)]))
  }

  /** The identifier-and-frame list of an `elementsDidFound` reply; a view without identifier traps. */
  function ElementEntries(app: App, views: seq<nat>): (r: Result<seq<Value>, Fatal>)
    requires forall k | 0 <= k < |views| :: views[k] < |app.tree|
    ensures r.Success? <==> forall k | 0 <= k < |views| :: app.tree[views[k]].identifier.Some?
    ensures r.Success? ==>
      |r.value| == |views| &&
      forall k | 0 <= k < |views| :: r.value[k] == Object(map[
        "identifier" := Text(app.tree[views[k]].identifier.value),
        "frame" := Text(app.screenFrameText(views[k]))])
  {
    if |views| == 0 then Success([])
    else
      var v := views[0];
      match app.tree[v].identifier
      case None => Failure(MissingIdentifier(v))
      case Some(id) =>
        var rest :- ElementEntries(app, views[1..]);
        assert forall k | 1 <= k < |views| :: views[1..][k - 1] == views[k];
        Success([Object(map["identifier" := Text(id), "frame" := Text(app.screenFrameText(v))])] + rest)
  }

  /**
   * The three element queries: find, climb to the accessible container,
   * report. The reply lists one identifier-and-frame entry per kept
   * container, in the order the views were found.
   */
  function QueryReply(app: App, q: Query, messageId: int): (r: Result<Reply, Fatal>)
    requires ValidApp(app)
    ensures r.Success? ==> r.value.action == "elementsDidFound" && r.value.messageId == messageId
    ensures var kept := KeepAll(app.tree, FindViews(app.runtime, app.tree, q));
      r.Success? <==> ElementEntries(app, kept).Success?
    ensures var kept := KeepAll(app.tree, FindViews(app.runtime, app.tree, q));
      r.Success? ==>
        ElementEntries(app, kept).Success? &&
        r.value.params == map["elementsIDsAndFrames" := List(ElementEntries(app, kept).value)]
    ensures var kept := KeepAll(app.tree, FindViews(app.runtime, app.tree, q));
      r.Failure? ==> ElementEntries(app, kept).Failure? && r.error == ElementEntries(app, kept).error
  {
    var found := FindViews(app.runtime, app.tree, q);
    var kept := KeepAll(app.tree, found);
    var entries :- ElementEntries(app, kept);
    Success(Reply("elementsDidFound", map["elementsIDsAndFrames" := List(entries)], messageId))
  }

  /** The query a find-by handler builds from its parameters. */
  function QueryOf(k: ActionKind, params: Params): (r: Result<Query, Fatal>)
    requires IsQuery(k)
    ensures k == FindElementsByText ==>
      (r.Success? <==> OptString(params, "text").Some? && OptBool(params, "isRegex").Some?)
    ensures k == FindElementsByText && r.Success? ==>
      r.value == ByText(OptString(params, "text").value, OptBool(params, "isRegex").value)
    ensures k == FindElementsByText && OptString(params, "text").None? ==> r == Failure(BadCast("text"))
    ensures k == FindElementsByText && OptString(params, "text").Some? && OptBool(params, "isRegex").None? ==>
      r == Failure(BadCast("isRegex"))
    ensures k == FindElementsByType ==> (r.Success? <==> OptString(params, "type").Some?)
    ensures k == FindElementsByType && r.Success? ==> r.value == ByType(OptString(params, "type").value)
    ensures k == FindElementsByType && r.Failure? ==> r.error == BadCast("type")
    ensures k == FindElementsByTraits ==>
      (r.Success? <==> OptStrings(params, "traits").Some? && KnownTraits(OptStrings(params, "traits").value))
    ensures k == FindElementsByTraits && r.Success? ==>
      r.value == ByTraits(TraitMask(OptStrings(params, "traits").value).value)
    ensures k == FindElementsByTraits && OptStrings(params, "traits").None? ==> r == Failure(BadCast("traits"))
  {
    match k
    case FindElementsByText =>
      var text :- ForceString(params, "text");
      var isRegex :- ForceBool(params, "isRegex");
      Success(ByText(text, isRegex))
    case FindElementsByType =>
      var typeName :- ForceString(params, "type");
      Success(ByType(typeName))
    case FindElementsByTraits =>
      var names :- ForceStrings(params, "traits");
      var mask :- TraitMask(names);
      Success(ByTraits(mask))
  }

  /**
   * The find-by-type query from request to selection: a name that resolves
   * to a class selects exactly the views of that kind, whatever they
   * conform to; otherwise a name that resolves to a protocol selects
   * exactly the conforming views; any other name selects nothing.
   */
  lemma TypeQuerySelects(app: App, params: Params)
    requires OptString(params, "type").Some?
    ensures QueryOf(FindElementsByType, params) == Success(ByType(OptString(params, "type").value))
    ensures var name := OptString(params, "type").value;
      var found := FindViews(app.runtime, app.tree, ByType(name));
      name in app.runtime.classes ==>
        forall i | 0 <= i < |app.tree| :: i in found <==> name in app.tree[i].kinds
    ensures var name := OptString(params, "type").value;
      var found := FindViews(app.runtime, app.tree, ByType(name));
      name !in app.runtime.classes && name in app.runtime.protocols ==>
        forall i | 0 <= i < |app.tree| :: i in found <==> name in app.tree[i].conformances
    ensures var name := OptString(params, "type").value;
      name !in app.runtime.classes && name !in app.runtime.protocols ==>
        FindViews(app.runtime, app.tree, ByType(name)) == []
  {
    var name := OptString(params, "type").value;
    var found := FindViews(app.runtime, app.tree, ByType(name));
    assert |found| > 0 ==> Matches(app.runtime, app.tree[found[0]], ByType(name));
  }

  /**
   * `map` with a closure that may trap: the first failure stops it,
   * otherwise the values in order.
   */
  function AllOf<T>(rs: seq<Result<T, Fatal>>): (r: Result<seq<T>, Fatal>)
    ensures r.Success? <==> forall k | 0 <= k < |rs| :: rs[k].Success?
    ensures r.Success? ==> |r.value| == |rs| && forall k | 0 <= k < |rs| :: rs[k] == Success(r.value[k])
    ensures r.Failure? ==>
      exists k | 0 <= k < |rs| :: rs[k] == Failure(r.error) && forall j | 0 <= j < k :: rs[j].Success?
  {
    if |rs| == 0 then Success([])
    else
      var v :- rs[0];
      var rest :- AllOf(rs[1..]);
      assert forall k | 1 <= k < |rs| :: rs[1..][k - 1] == rs[k];
      Success([v] + rest)
  }

  /** The `getAttributes` resolution of every requested element, in order; the first element that fails traps. */
  function ResolveAll(app: App, elements: seq<map<string, Value>>): (r: Result<seq<nat>, Fatal>)
    ensures r.Success? <==> forall k | 0 <= k < |elements| :: ResolveParam(app, elements[k], "identifier", "frame").Success?
    ensures r.Success? ==> |r.value| == |elements|
    ensures r.Success? ==> forall k | 0 <= k < |r.value| :: r.value[k] < |app.tree|
    ensures r.Success? ==> forall k | 0 <= k < |elements| ::
      ResolveParam(app, elements[k], "identifier", "frame") == Success(r.value[k])
  {
    var rs := seq(|elements|, k requires 0 <= k < |elements| => ResolveParam(app, elements[k], "identifier", "frame"));
    assert forall k | 0 <= k < |elements| :: rs[k] == ResolveParam(app, elements[k], "identifier", "frame");
    AllOf(rs)
  }

  /** The long-press-and-drag handler's decoding, in the source's order of traps. */
  function DecodeDrag(app: App, params: Params): (r: Result<DragGesture, Fatal>)
    ensures r.Success? ==> r.value.velocity == (if OptString(params, "speed") == Some("slow") then 0.1 else 0.5)
    ensures r.Success? ==> r.value.lastHoldDuration == HoldDuration(app, OptNumber(params, "holdDuration"))
    ensures r.Success? ==> r.value.start == GetNormalizedPoint(OptFloat(params, "normalizedPositionX"), OptFloat(params, "normalizedPositionY"))
    ensures OptString(params, "speed").Some? && OptString(params, "speed").value !in {"slow", "fast"} ==> r.Failure?
    ensures r.Success? <==>
      ResolveParam(app, params, "elementID", "elementFrame").Success? &&
      ResolveParam(app, params, "targetElementID", "targetElementFrame").Success? &&
      ForceNumber(params, "duration").Success? &&
      DecodeSpeed(OptString(params, "speed")).Success?
    ensures r.Success? ==>
      ResolveParam(app, params, "elementID", "elementFrame") == Success(r.value.element) &&
      ResolveParam(app, params, "targetElementID", "targetElementFrame") == Success(r.value.target) &&
      ForceNumber(params, "duration").Success? &&
      r.value.duration == ForceNumber(params, "duration").value.doubleValue &&
      r.value.targetPoint ==
        GetNormalizedPoint(OptFloat(params, "normalizedTargetPositionX"), OptFloat(params, "normalizedTargetPositionY"))
  {
    var elementId :- ForceString(params, "elementID");
    var elementFrame :- ForceDoubles(params, "elementFrame");
    var targetId :- ForceString(params, "targetElementID");
    var targetFrame :- ForceDoubles(params, "targetElementFrame");
    var duration :- ForceNumber(params, "duration");
    var element :- FindElement(app.runtime, app.tree, elementId, elementFrame);
    var target :- FindElement(app.runtime, app.tree, targetId, targetFrame);
    var start := GetNormalizedPoint(OptFloat(params, "normalizedPositionX"), OptFloat(params, "normalizedPositionY"));
    var targetPoint := GetNormalizedPoint(OptFloat(params, "normalizedTargetPositionX"), OptFloat(params, "normalizedTargetPositionY"));
    var speed :- DecodeSpeed(OptString(params, "speed"));
    Success(DragGesture(element, start, duration.doubleValue, target, targetPoint, speed,
      HoldDuration(app, OptNumber(params, "holdDuration"))))
  }

  // ----- the handlers -----

  /** The facts every handler's outcome shares: the reply answers the request, and only the sync handler touches settings. */
  predicate Answers(r: Result<Dispatch, Fatal>, s: Sync.SyncSettings, k: ActionKind, messageId: int) {
    r.Success? ==>
      r.value.reply.action == ReplyAction(k) && r.value.reply.messageId == messageId &&
      r.value.settings == s && r.value.replyWhenIdle
  }

  /** Only a React Native app is reloaded, and then the reply waits for the new bundle to load. */
  function HandleReload(app: App, s: Sync.SyncSettings, messageId: int): (r: Result<Dispatch, Fatal>)
    ensures Answers(r, s, ReloadReactNative, messageId) && r.Success?
    ensures app.isReactNativeApp ==>
      r.value.effects == [ReloadApp] && r.value.workWhenIdle && r.value.replyWhen == AfterReactNativeLoad
    ensures !app.isReactNativeApp ==> r.value.effects == [] && r.value.replyWhen == Now
  {
    var reply := Reply(ReplyAction(ReloadReactNative), map[], messageId);
    if app.isReactNativeApp then Success(Dispatch(s, [ReloadApp], true, reply, AfterReactNativeLoad, true))
    else Success(Done(s, [], false, reply))
  }

  /** One attribute dictionary per requested element, in request order. */
  function HandleGetAttributes(app: App, s: Sync.SyncSettings, params: Params, messageId: int): (r: Result<Dispatch, Fatal>)
    ensures Answers(r, s, GetAttributes, messageId)
    ensures r.Success? <==>
      ForceObjects(params, "elementIDsAndFrames").Success? &&
      ResolveAll(app, ForceObjects(params, "elementIDsAndFrames").value).Success?
    ensures r.Success? ==>
      ForceObjects(params, "elementIDsAndFrames").Success? &&
      r.value.reply.params.Keys == {"elements"} &&
      r.value.reply.params["elements"].List? &&
      |r.value.reply.params["elements"].items| == |ForceObjects(params, "elementIDsAndFrames").value|
    ensures r.Success? ==>
      ForceObjects(params, "elementIDsAndFrames").Success? &&
      var elements := ForceObjects(params, "elementIDsAndFrames").value;
      ResolveAll(app, elements).Success? &&
      forall k | 0 <= k < |elements| ::
        r.value.reply.params["elements"].items[k] == app.attributes(ResolveAll(app, elements).value[k])
  {
    var elements :- ForceObjects(params, "elementIDsAndFrames");
    var views :- ResolveAll(app, elements);
    var attrs := seq(|views|, i requires 0 <= i < |views| => app.attributes(views[i]));
    Success(Done(s, [], false, Reply(ReplyAction(GetAttributes), map["elements" := List(attrs)], messageId)))
  }

  /** The three element queries, run when the app is idle. */
  function HandleQuery(app: App, s: Sync.SyncSettings, k: ActionKind, params: Params, messageId: int): (r: Result<Dispatch, Fatal>)
    requires ValidApp(app) && IsQuery(k)
    ensures Answers(r, s, k, messageId)
    ensures r.Success? ==> r.value.workWhenIdle && r.value.effects == []
    ensures r.Success? <==>
      QueryOf(k, params).Success? &&
      ElementEntries(app, KeepAll(app.tree, FindViews(app.runtime, app.tree, QueryOf(k, params).value))).Success?
    ensures r.Success? ==>
      QueryOf(k, params).Success? &&
      var kept := KeepAll(app.tree, FindViews(app.runtime, app.tree, QueryOf(k, params).value));
      ElementEntries(app, kept).Success? &&
      r.value.reply.params == map["elementsIDsAndFrames" := List(ElementEntries(app, kept).value)]
    ensures k == FindElementsByTraits && r.Success? ==>
      ForceStrings(params, "traits").Success? && KnownTraits(ForceStrings(params, "traits").value)
  {
    var q :- QueryOf(k, params);
    var found :- QueryReply(app, q, messageId);
    Success(Done(s, [], true, found))
  }

  /** The status report goes out directly, bypassing the idle-gated send. */
  function HandleStatus(app: App, s: Sync.SyncSettings, messageId: int): (r: Dispatch)
    ensures r.reply.action == "currentStatusResult" && r.reply.messageId == messageId
    ensures !r.replyWhenIdle && r.settings == s && r.effects == []
    ensures r.reply.params == map["messageId" := Number(messageId as real), "status" := app.status]
  {
    Dispatch(s, [], false,
      Reply(ReplyAction(RequestCurrentStatus), map["messageId" := Number(messageId as real), "status" := app.status], messageId),
      Now, false)
  }

  /** A delayed payload is handed over at once; an undelayed one waits until the app is idle. */
  function HandleDeliverPayload(app: App, s: Sync.SyncSettings, params: Params, messageId: int): (r: Result<Dispatch, Fatal>)
    ensures Answers(r, s, DeliverPayload, messageId)
    ensures r.Success? ==>
      DeliverPayloadEffect(app, params).Success? &&
      r.value.effects == [DeliverPayloadEffect(app, params).value] &&
      r.value.workWhenIdle == !OptBool(params, "delayPayload").GetOr(false)
    ensures r.Failure? ==>
      DeliverPayloadEffect(app, params).Failure? &&
      r.error == DeliverPayloadEffect(app, params).error
  {
    var effect :- DeliverPayloadEffect(app, params);
    var delay := OptBool(params, "delayPayload").GetOr(false);
    Success(Done(s, [effect], !delay, Reply(ReplyAction(DeliverPayload), map[], messageId)))
  }

  /** The resolved element must be a date picker; the time is read only after that check. */
  function HandleSetDatePicker(app: App, s: Sync.SyncSettings, params: Params, messageId: int): (r: Result<Dispatch, Fatal>)
    ensures Answers(r, s, SetDatePicker, messageId)
    ensures r.Success? <==>
      ResolveParam(app, params, "elementID", "elementFrame").Success? &&
      ResolveParam(app, params, "elementID", "elementFrame").value in app.datePickers &&
      ForceNumber(params, "timeIntervalSince1970").Success?
    ensures r.Success? ==>
      |r.value.effects| == 1 && r.value.effects[0].AdjustDatePicker? &&
      ResolveParam(app, params, "elementID", "elementFrame").Success? &&
      r.value.effects[0].view == ResolveParam(app, params, "elementID", "elementFrame").value &&
      r.value.effects[0].view in app.datePickers &&
      ForceNumber(params, "timeIntervalSince1970").Success? &&
      r.value.effects[0].timeIntervalSince1970 == ForceNumber(params, "timeIntervalSince1970").value.doubleValue
    ensures (ResolveParam(app, params, "elementID", "elementFrame").Success? &&
      ResolveParam(app, params, "elementID", "elementFrame").value !in app.datePickers) ==>
      r == Failure(UnexpectedViewClass(ForceString(params, "elementID").value))
  {
    var view :- ResolveParam(app, params, "elementID", "elementFrame");
    if view !in app.datePickers then Failure(UnexpectedViewClass(ForceString(params, "elementID").value))
    else
      var time :- ForceNumber(params, "timeIntervalSince1970");
      Success(Done(s, [AdjustDatePicker(view, time.doubleValue)], false, Reply(ReplyAction(SetDatePicker), map[], messageId)))
  }

  /** The named custom action is performed when the element has one; the reply says whether it did. */
  function HandleAccessibilityAction(app: App, s: Sync.SyncSettings, params: Params, messageId: int): (r: Result<Dispatch, Fatal>)
    ensures Answers(r, s, PerformAccessibilityAction, messageId)
    ensures r.Success? <==>
      ResolveParam(app, params, "elementID", "elementFrame").Success? &&
      ForceString(params, "actionName").Success?
    ensures r.Success? ==>
      ResolveParam(app, params, "elementID", "elementFrame").Success? &&
      ForceString(params, "actionName").Success? &&
      var view := ResolveParam(app, params, "elementID", "elementFrame").value;
      var name := ForceString(params, "actionName").value;
      var found := name in app.customActions(view);
      r.value.reply.params == map["didFound" := Boolean(found)] &&
      r.value.effects == (if found then [PerformCustomAction(view, name)] else [])
  {
    var view :- ResolveParam(app, params, "elementID", "elementFrame");
    var name :- ForceString(params, "actionName");
    var found := name in app.customActions(view);
    Success(Done(s, if found then [PerformCustomAction(view, name)] else [], false,
      Reply(ReplyAction(PerformAccessibilityAction), map["didFound" := Boolean(found)], messageId)))
  }

  /** The script runs once the web view stops loading; the reply carries its result and error, each when present. */
  function HandleEvaluateJavaScript(app: App, s: Sync.SyncSettings, params: Params, messageId: int): (r: Result<Dispatch, Fatal>)
    ensures Answers(r, s, EvaluateJavaScript, messageId)
    ensures r.Success? <==>
      ForceString(params, "webViewIdentifier").Success? && ForceDoubles(params, "webViewFrame").Success? &&
      ForceString(params, "script").Success? &&
      FindElement(app.runtime, app.tree, ForceString(params, "webViewIdentifier").value,
                  ForceDoubles(params, "webViewFrame").value).Success? &&
      FindElement(app.runtime, app.tree, ForceString(params, "webViewIdentifier").value,
                  ForceDoubles(params, "webViewFrame").value).value in app.webViews
    ensures r.Success? ==>
      r.value.replyWhen == AfterWebViewLoad && r.value.effects == [] &&
      r.value.reply.params.Keys <= {"result", "error"}
    ensures r.Success? ==>
      ForceString(params, "webViewIdentifier").Success? && ForceDoubles(params, "webViewFrame").Success? &&
      ForceString(params, "script").Success? &&
      FindElement(app.runtime, app.tree, ForceString(params, "webViewIdentifier").value,
                  ForceDoubles(params, "webViewFrame").value).Success? &&
      var view := FindElement(app.runtime, app.tree, ForceString(params, "webViewIdentifier").value,
                              ForceDoubles(params, "webViewFrame").value).value;
      var outcome := app.runScript(view, ForceString(params, "script").value);
      view in app.webViews &&
      ("result" in r.value.reply.params <==> outcome.result.Some?) &&
      ("error" in r.value.reply.params <==> outcome.error.Some?) &&
      (outcome.result.Some? ==> r.value.reply.params["result"] == Text(outcome.result.value)) &&
      (outcome.error.Some? ==> r.value.reply.params["error"] == Text(outcome.error.value))
  {
    var identifier :- ForceString(params, "webViewIdentifier");
    var frame :- ForceDoubles(params, "webViewFrame");
    var script :- ForceString(params, "script");
    var view :- FindElement(app.runtime, app.tree, identifier, frame);
    if view !in app.webViews then Failure(UnexpectedViewClass(identifier))
    else
      var outcome := app.runScript(view, script);
      var withResult := match outcome.result case Some(v) => map["result" := Text(v)] case None => map[];
      var answer := match outcome.error case Some(e) => withResult["error" := Text(e)] case None => withResult;
      Success(Dispatch(s, [], false, Reply(ReplyAction(EvaluateJavaScript), answer, messageId), AfterWebViewLoad, true))
  }

  /** The whole gesture is decoded before it is performed, and the reply follows it. */
  function HandleLongPressAndDrag(app: App, s: Sync.SyncSettings, params: Params, messageId: int): (r: Result<Dispatch, Fatal>)
    ensures Answers(r, s, LongPressAndDrag, messageId)
    ensures r.Success? <==> DecodeDrag(app, params).Success?
    ensures r.Success? ==> r.value.effects == [Drag(DecodeDrag(app, params).value)]
  {
    var gesture :- DecodeDrag(app, params);
    Success(Done(s, [Drag(gesture)], false, Reply(ReplyAction(LongPressAndDrag), map[], messageId)))
  }

  /** Visibility is judged against the given threshold percentage. */
  function HandleVerifyVisibility(app: App, s: Sync.SyncSettings, params: Params, messageId: int): (r: Result<Dispatch, Fatal>)
    ensures Answers(r, s, VerifyVisibility, messageId)
    ensures r.Success? <==>
      ResolveParam(app, params, "elementID", "elementFrame").Success? && ForceNumber(params, "threshold").Success?
    ensures r.Success? ==>
      ForceString(params, "elementID").Success? && ForceDoubles(params, "elementFrame").Success? &&
      ForceNumber(params, "threshold").Success? &&
      FindElement(app.runtime, app.tree, ForceString(params, "elementID").value,
                  ForceDoubles(params, "elementFrame").value).Success? &&
      var view := FindElement(app.runtime, app.tree, ForceString(params, "elementID").value,
                              ForceDoubles(params, "elementFrame").value).value;
      r.value.reply.params == map["isVisible" := Boolean(app.isVisible(view, ForceNumber(params, "threshold").value.doubleValue))]
  {
    var identifier :- ForceString(params, "elementID");
    var frame :- ForceDoubles(params, "elementFrame");
    var threshold :- ForceNumber(params, "threshold");
    var view :- FindElement(app.runtime, app.tree, identifier, frame);
    Success(Done(s, [], false,
      Reply(ReplyAction(VerifyVisibility), map["isVisible" := Boolean(app.isVisible(view, threshold.doubleValue))], messageId)))
  }

  /** The element's text is compared for exact equality. */
  function HandleVerifyText(app: App, s: Sync.SyncSettings, params: Params, messageId: int): (r: Result<Dispatch, Fatal>)
    ensures Answers(r, s, VerifyText, messageId)
    ensures r.Success? <==>
      ResolveParam(app, params, "elementID", "elementFrame").Success? && ForceString(params, "text").Success?
    ensures r.Success? ==>
      ForceString(params, "elementID").Success? && ForceDoubles(params, "elementFrame").Success? &&
      ForceString(params, "text").Success? &&
      FindElement(app.runtime, app.tree, ForceString(params, "elementID").value,
                  ForceDoubles(params, "elementFrame").value).Success? &&
      var view := FindElement(app.runtime, app.tree, ForceString(params, "elementID").value,
                              ForceDoubles(params, "elementFrame").value).value;
      r.value.reply.params == map["hasText" := Boolean(app.tree[view].text == ForceString(params, "text").value)]
  {
    var identifier :- ForceString(params, "elementID");
    var frame :- ForceDoubles(params, "elementFrame");
    var text :- ForceString(params, "text");
    var view :- FindElement(app.runtime, app.tree, identifier, frame);
    Success(Done(s, [], false,
      Reply(ReplyAction(VerifyText), map["hasText" := Boolean(app.tree[view].text == text)], messageId)))
  }

  /** Reports whether the resolved element has focus. */
  function HandleIsFocused(app: App, s: Sync.SyncSettings, params: Params, messageId: int): (r: Result<Dispatch, Fatal>)
    ensures Answers(r, s, IsElementFocused, messageId)
    ensures r.Success? <==> ResolveParam(app, params, "elementID", "elementFrame").Success?
    ensures r.Success? ==>
      ResolveParam(app, params, "elementID", "elementFrame").Success? &&
      r.value.reply.params == map["isFocused" := Boolean(app.isFocused(ResolveParam(app, params, "elementID", "elementFrame").value))]
  {
    var view :- ResolveParam(app, params, "elementID", "elementFrame");
    Success(Done(s, [], false, Reply(ReplyAction(IsElementFocused), map["isFocused" := Boolean(app.isFocused(view))], messageId)))
  }

  /** Starting a recording replies at once; stopping one replies from the recorder's stop callback. */
  function HandleSetRecordingState(s: Sync.SyncSettings, params: Params, messageId: int): (r: Dispatch)
    ensures r.reply == Reply("didSetRecordingState", map[], messageId) && r.settings == s && r.replyWhenIdle
    ensures OptString(params, "recordingPath").Some? ==>
      r.effects == [Record(StartRecording(params))] && r.replyWhen == Now
    ensures OptString(params, "recordingPath").None? ==>
      r.effects == [Record(StopRecording)] && r.replyWhen == AfterRecordingStopped
  {
    var events := HandlePerformanceRecording(Some(params), false, true);
    var when := if OptString(params, "recordingPath").Some? then Now else AfterRecordingStopped;
    Dispatch(s, [Record(events[0])], false, Reply("didSetRecordingState", map[], messageId), when, true)
  }

  /** The hierarchy capture handler; the reply's parameters come from `CaptureHierarchy`. */
  function HandleCaptureViewHierarchy(app: App, s: Sync.SyncSettings, params: Params, messageId: int): (r: Result<Dispatch, Fatal>)
    ensures Answers(r, s, CaptureViewHierarchy, messageId)
    ensures r.Success? <==> CaptureHierarchy(app, params).Success?
    ensures r.Success? ==>
      r.value.effects == CaptureHierarchy(app, params).value.0 &&
      r.value.reply.params == CaptureHierarchy(app, params).value.1
  {
    var (effects, answer) :- CaptureHierarchy(app, params);
    Success(Done(s, effects, false, Reply(ReplyAction(CaptureViewHierarchy), answer, messageId)))
  }

  // ----- the switch -----

  /**
   * What every known action's outcome promises: the reply carries the
   * request's id and the action's reply name, only the status request
   * bypasses the idle gate, and only the sync request changes settings.
   */
  predicate Replies(r: Result<Dispatch, Fatal>, s: Sync.SyncSettings, k: ActionKind, messageId: int) {
    r.Success? ==>
      r.value.reply.messageId == messageId && r.value.reply.action == ReplyAction(k) &&
      (r.value.replyWhenIdle <==> k != RequestCurrentStatus) &&
      (k != SetSyncSettings ==> r.value.settings == s)
  }

  /** The actions that resolve elements of the app: the queries and the per-element actions. */
  predicate IsElementAction(k: ActionKind) {
    k in {GetAttributes, FindElementsByText, FindElementsByType, FindElementsByTraits, SetDatePicker,
          PerformAccessibilityAction, EvaluateJavaScript, LongPressAndDrag, VerifyVisibility, VerifyText, IsElementFocused}
  }

  /** The element actions of the switch. */
  function HandleElementKind(app: App, s: Sync.SyncSettings, k: ActionKind, params: Params, messageId: int): (r: Result<Dispatch, Fatal>)
    requires ValidApp(app) && IsElementAction(k)
    ensures Replies(r, s, k, messageId)
  {
    match k
    case GetAttributes => HandleGetAttributes(app, s, params, messageId)
    case FindElementsByText => HandleQuery(app, s, k, params, messageId)
    case FindElementsByType => HandleQuery(app, s, k, params, messageId)
    case FindElementsByTraits => HandleQuery(app, s, k, params, messageId)
    case SetDatePicker => HandleSetDatePicker(app, s, params, messageId)
    case PerformAccessibilityAction => HandleAccessibilityAction(app, s, params, messageId)
    case EvaluateJavaScript => HandleEvaluateJavaScript(app, s, params, messageId)
    case LongPressAndDrag => HandleLongPressAndDrag(app, s, params, messageId)
    case VerifyVisibility => HandleVerifyVisibility(app, s, params, messageId)
    case VerifyText => HandleVerifyText(app, s, params, messageId)
    case IsElementFocused => HandleIsFocused(app, s, params, messageId)
  }

  /** The actions about the app as a whole, other than the settings update. */
  function HandleAppKind(app: App, s: Sync.SyncSettings, k: ActionKind, params: Params, messageId: int): (r: Result<Dispatch, Fatal>)
    requires !IsElementAction(k) && k != SetSyncSettings
    ensures Replies(r, s, k, messageId)
  {
    match k
    case ReloadReactNative => HandleReload(app, s, messageId)
    case WaitUntilReady => Success(Done(s, [], false, Reply(ReplyAction(WaitUntilReady), map[], messageId)))
    case ShakeDevice => Success(Done(s, [Shake], true, Reply(ReplyAction(ShakeDevice), map[], messageId)))
    case RequestCurrentStatus => Success(HandleStatus(app, s, messageId))
    case DeliverPayload => HandleDeliverPayload(app, s, params, messageId)
    case SetRecordingState => Success(HandleSetRecordingState(s, params, messageId))
    case CaptureViewHierarchy => HandleCaptureViewHierarchy(app, s, params, messageId)
  }

  /** One known action: its handler's reply answers the request under the action's reply name. */
  function HandleKind(app: App, s: Sync.SyncSettings, k: ActionKind, params: Params, messageId: int): (r: Result<Dispatch, Fatal>)
    requires ValidApp(app)
    ensures Replies(r, s, k, messageId)
    ensures k == SetSyncSettings ==>
      r == Success(Done(Sync.SetSyncSettings(s, params, messageId).0, [], false, Sync.SetSyncSettings(s, params, messageId).1))
  {
    if IsElementAction(k) then HandleElementKind(app, s, k, params, messageId)
    else if k == SetSyncSettings then
      var (s', answer) := Sync.SetSyncSettings(s, params, messageId);
      Success(Done(s', [], false, answer))
    else HandleAppKind(app, s, k, params, messageId)
  }

  /**
   * `webSocket(didReceiveAction:params:messageId:)`: an unknown action type
   * stops the process and sends nothing; every known one either traps or
   * yields exactly one reply, carrying the request's message id.
   */
  function HandleAction(app: App, s: Sync.SyncSettings, actionType: string, params: Params, messageId: int): (r: Result<Dispatch, Fatal>)
    requires ValidApp(app)
    ensures Route(actionType).None? ==> r == Failure(UnknownActionType(actionType))
    ensures Route(actionType).Some? ==> r == HandleKind(app, s, Route(actionType).value, params, messageId)
  {
    match Route(actionType)
    case None => Failure(UnknownActionType(actionType))
    case Some(k) => HandleKind(app, s, k, params, messageId)
  }

  /**
   * Every reply carries the request's message id and the reply name of the
   * action that was asked for; only the status request bypasses the idle
   * gate, and only the sync-settings request changes the settings.
   */
  lemma DispatchAnswersRequest(app: App, s: Sync.SyncSettings, actionType: string, params: Params, messageId: int)
    requires ValidApp(app)
    ensures var r := HandleAction(app, s, actionType, params, messageId);
      r.Success? ==>
        Route(actionType).Some? &&
        r.value.reply.messageId == messageId &&
        r.value.reply.action == ReplyAction(Route(actionType).value) &&
        (r.value.replyWhenIdle <==> actionType != "requestCurrentStatus") &&
        (actionType != "setSyncSettings" ==> r.value.settings == s)
  {
    match Route(actionType)
    case None =>
    case Some(k) =>
      NameOfRoute(actionType);
      NamesStatus(k);
      NamesSyncSettings(k);
  }

  /** Only the status request is named `requestCurrentStatus`. */
  lemma NamesStatus(k: ActionKind)
    ensures ActionName(k) == "requestCurrentStatus" <==> k == RequestCurrentStatus
  {
    RouteOfName(k);
  }

  /** Only the settings update is named `setSyncSettings`. */
  lemma NamesSyncSettings(k: ActionKind)
    ensures ActionName(k) == "setSyncSettings" <==> k == SetSyncSettings
  {
    RouteOfName(k);
  }

  /** The default destination always passes the extension check, so capturing without a path never traps. */
  lemma DefaultHierarchyPathAccepted(app: App, params: Params)
    requires OptString(params, "viewHierarchyURL").None?
    requires forall k | 0 <= k < |app.uuid| :: app.uuid[k] != '/'
    ensures CaptureHierarchy(app, params).Success?
  {
    var dir := app.temporaryDirectory;
    var name := app.uuid + HierarchyExtension;
    HierarchyNameHasNoSlash(app.uuid);
    if |dir| > 0 && dir[|dir| - 1] == '/' {
      assert dir + name == dir[..|dir| - 1] + "/" + name;
      LastPathComponentOfJoin(dir[..|dir| - 1], name);
    } else {
      LastPathComponentOfJoin(dir, name);
    }
    assert name[|name| - |HierarchyExtension|..] == HierarchyExtension;
  }

  /** A generated file name is one path component when the UUID holds no `/`. */
  lemma HierarchyNameHasNoSlash(uuid: string)
    requires forall k | 0 <= k < |uuid| :: uuid[k] != '/'
    ensures forall k | 0 <= k < |uuid + HierarchyExtension| :: (uuid + HierarchyExtension)[k] != '/'
  {
    var name := uuid + HierarchyExtension;
    forall k | 0 <= k < |name| ensures name[k] != '/' {
      if k >= |uuid| { assert name[k] == HierarchyExtension[k - |uuid|]; }
    }
  }
}
