# Detox iOS core, modelled in Dafny

Detox is a gray-box end-to-end testing framework. On iOS two processes cooperate:

- The **instrumented app** runs `DetoxManager`. It receives actions from the test driver over a web socket. It resolves the views an action names by accessibility identifier and a hint frame. It performs the action and sends back one reply carrying the request's `messageId`. On a malformed request it stops with a fatal error.
- The **tester** (an XCUITest runner) acts on `XCUIElement`s: scrolling, typing and pasting text. It also talks to a white-box executor inside the app through `Message`s.

This project models the decision logic of both sides as pure functions over immutable data. The following are oracles: the view tree, the Objective-C runtime, screenshots, menu items, the recorder, the hierarchy dumper and the web view. Each is an abstract value or a function-valued field. Effects such as "open this URL", "drag from here to there" or "tap Select All" are recorded as data, not performed. A trap (`fatalError`, a failed `as!`, a nil `!` unwrap, a failed `precondition`) is the `Failure` side of a `Result` whose error is a `Params.Fatal`.

Modules, one per file:

| module | file | what it holds |
|---|---|---|
| `Wrappers` | wrappers.dfy | `Option`, `Result` |
| `Text` | text.dfy | string helpers: prefix, suffix and containment lemmas; Swift's printing of optionals and arrays; `URL.lastPathComponent` |
| `Geometry` | geometry.dfy | `CGRect` standardization, intersection, the resolver's intersection ratio |
| `Params` | values.dfy | decoded JSON parameters, Swift's `as?`/`as!` casts, the reply record, the fatal errors |
| `Views` | ui_tree.dfy | the view tree oracle, the accessibility climb, trait masks, type matching, the key-window walk |
| `Resolver` | resolver.dfy | `findElement(byIdentifier:andFrame:)` |
| `Sync` | sync_settings.dfy | the launch-time and message-time synchronization-settings writers |
| `Recording` | recording.dfy | `handlePerformanceRecording` and the launch recording properties |
| `Dispatcher` | dispatcher.dfy | the action switch and every handler |
| `ElementErrors` | element_errors.dfy | the tester's `XCUIElement.Error` and its descriptions |
| `Scroll` | scroll.dfy | `scroll(_:app:testCase:)`, the scroll-to-edge loop, scroll-by-offset |
| `Keyboard` | keyboard.dfy | focus, key taps and the three text changes |
| `ExecutorMessage` | executor_message.dfy | the white-box `Message` enum and its descriptions |
| `WebPredicate` | web_predicate.dfy | the message builder's web predicates and `webAt` |

The code as written behaves as follows, and the model follows it:

- `setSyncSettings` writes only the fields present in the message. It writes `maxTimerWait` unscaled. It copies `disabled` as given. The launch-time writer is different: it divides by 1000 and negates `enabled`.
- An identifier that matches no view does not produce a reported failure. It is a fatal error.
- `waitUntilReady` replies `isReady` through the idle-gated send. It does not wait for any other launch signal.
- `clear` is meant to select all and then delete. As written, it selects all and never deletes (see Findings).
- `evaluateJavaScript` traps on ill-typed parameters. It also traps when the resolved view is not a web view.

## Model

| member | source | states |
|---|---|---|
| Geometry.IntersectionRatio | detox/ios/Detox/DetoxManager.swift:753-764 | The ratio is 0 for rectangles that do not intersect. For intersecting ones, the areas are positive and the ratio is the intersection's area over the mean of the two areas. |
| Geometry.RatioBounds | detox/ios/Detox/DetoxManager.swift:753-764 | The ratio always lies in [0, 1]. |
| Geometry.RatioSymmetric | detox/ios/Detox/DetoxManager.swift:753-764 | The ratio does not depend on the order of the two rectangles. |
| Geometry.RatioSelf | detox/ios/Detox/DetoxManager.swift:753-764 | A rectangle of positive area has ratio exactly 1 with itself. |
| Geometry.AreaOfIntersectionBounded | detox/ios/Detox/DetoxManager.swift:754-759 | The intersection of two intersecting rectangles has positive area, no larger than either rectangle's area. |
| Resolver.Candidates | detox/ios/Detox/DetoxManager.swift:710-731 | The matching views are exactly the views whose identifier equals the requested one, each once, in walk order. |
| Resolver.BestAmong | detox/ios/Detox/DetoxManager.swift:740-750 | The chosen candidate has a maximal ratio against the hint. Every candidate before it scores strictly less. |
| Resolver.FindElement | detox/ios/Detox/DetoxManager.swift:708-751 | Resolution traps exactly when no view matches, or when several match and the hint has fewer than four numbers. No match traps with the identifier and frame. A returned view always carries the requested identifier. A single match is returned whatever the hint is. With several matches, the first candidate of maximal ratio wins. |
| Resolver.TwoButtonsScores | detox/ios/Detox/DetoxManager.swift:740-764 | Worked example: a button under the hint scores 3150/3575 and a distant twin scores 0. |
| Views.Climb | detox/ios/Detox/DetoxManager.swift:251-255 | The climb ends at the view itself or at an accessible ancestor. The superview of where it ends, if any, is not accessible. |
| Views.Keep | detox/ios/Detox/DetoxManager.swift:251-258 | A kept view is accessible and is the found view or one of its ancestors. |
| Views.ClimbPassesAccessibleOnly | detox/ios/Detox/DetoxManager.swift:251-255 | Every superview the climb passes through, up to and including where it ends, is accessible. |
| Views.ClimbUnique | detox/ios/Detox/DetoxManager.swift:251-255 | The climb stops at the first superview that is not accessible. Any view reached through accessible superviews only, whose own superview is missing or not accessible, is the climb's result. |
| Views.KeepStopsAtFirst | detox/ios/Detox/DetoxManager.swift:251-258 | A kept view is the climb's result, reached through accessible superviews only. |
| Views.KeepDrops | detox/ios/Detox/DetoxManager.swift:251-258 | A found view is dropped exactly when neither it nor its superview is accessible. |
| Views.KeepAll | detox/ios/Detox/DetoxManager.swift:251-258 | The result holds at most as many views as were found, all accessible. Every kept container appears, and nothing else does. |
| Views.KeepOne | detox/ios/Detox/DetoxManager.swift:251-258 | One found view contributes its kept container, or nothing when it is dropped. |
| Views.KeepAllAppend | detox/ios/Detox/DetoxManager.swift:251-258 | Keeping distributes over concatenation of the found list. With `Views.KeepOne` this fixes order and multiplicity: two found views with the same container list it twice, in found order. |
| Views.FindViewsUpTo | detox/ios/Detox/DetoxManager.swift:241-250 | The walk returns exactly the views passing the predicate, in walk order, each once. |
| Views.InsertTraits | detox/ios/Detox/DetoxManager.swift:328-350 | The mask is built exactly when every trait name is known. Otherwise it traps on the first unknown name. |
| Views.TraitsMatchEach | detox/ios/Detox/DetoxManager.swift:350-359 | A view passes the traits predicate exactly when it is accessible and carries every requested trait's bit. |
| Views.TraitsOrderIrrelevant | detox/ios/Detox/DetoxManager.swift:350-359 | Reordering or repeating the trait names selects the same views. |
| Views.NoTraitsMatchesAccessible | detox/ios/Detox/DetoxManager.swift:328-359 | No traits, or only "none", selects exactly the accessible views. |
| Views.FindViews | detox/ios/Detox/DetoxManager.swift:250 | Exactly the views that pass the query, each once, in walk order. |
| Sync.LaunchSettingsMeaning | detox/ios/Detox/DetoxManager.swift:146-168 | For any iteration order of a launch dictionary, applying it succeeds exactly when every known key is well typed. It then yields the order-free reading: timer wait / 1000 into both durations, the blacklist, `!enabled`. A failure names an ill-typed key. It is stated of `Sync.ApplyLaunchSettings`, the model of the loop over the launch dictionary. |
| Sync.LaunchOrderIrrelevant | detox/ios/Detox/DetoxManager.swift:147-168 | Two iteration orders of the same dictionary give the same outcome. |
| Sync.UnknownKeysIgnored | detox/ios/Detox/DetoxManager.swift:164-166 | Keys the writer does not know leave every setting unchanged. |
| Sync.SetSyncSettings | detox/ios/Detox/DetoxManager.swift:499-521 | An absent field leaves its setting unchanged. `maxTimerWait` goes unscaled into both durations. `disabled` is copied as given. The reply is always `didSetSyncSettings` with the request's id. |
| Sync.SetSyncSettingsIdempotent | detox/ios/Detox/DetoxManager.swift:499-516 | Applying the same message twice equals applying it once. |
| Sync.EmptyMessageKeepsSettings | detox/ios/Detox/DetoxManager.swift:499-516 | An empty message changes no setting. |
| Sync.LaunchAgreesWithMessage | detox/ios/Detox/DetoxManager.swift:146-163 | The launch writer given milliseconds and `enabled` reaches the same settings as the message writer given seconds and `disabled = !enabled`. |
| Recording.HandlePerformanceRecording | detox/ios/Detox/DetoxManager.swift:93-124 | A string `recordingPath` starts a recording, or continues one at launch. Anything else stops the recording. A given completion runs exactly once, as the last event, and none runs otherwise. After a stop, it runs only after the recorder's stop callback. Nothing else happens: one event for a start or continue, two for a stop and its callback, plus one for the completion. |
| Recording.ExactlyOneCommand | detox/ios/Detox/DetoxManager.swift:96-123 | Every call issues exactly one recorder command, as its first event: a start, a continue or a stop. No later event is a command. |
| Recording.LaunchRecordingProps | detox/ios/Detox/DetoxManager.swift:39-44 | Launch properties exist exactly when a recording path is set. They carry that path, and the given sampling interval exactly when one is set. |
| Recording.LaunchContinuesRecording | detox/ios/Detox/DetoxManager.swift:39-47 | At launch, a configured recording is continued, never started, and no completion runs. |
| Dispatcher.RouteInvertsName | detox/ios/Detox/DetoxManager.swift:191-704 | The switch routes each of the 19 action names to its handler. Any name it routes is that handler's name. It is stated of `Dispatcher.Route`, the model of the switch on the action type. |
| Dispatcher.ReplyIdentifiesAction | detox/ios/Detox/DetoxManager.swift:191-700 | Two actions that reply under the same action name are the same action, or are both element queries. |
| Dispatcher.GetNormalizedPoint | detox/ios/Detox/DetoxManager.swift:766-782 | A coordinate is kept exactly when it is present and not NaN. An absent or NaN coordinate becomes NaN. |
| Dispatcher.NormalizedPointKeepsNumbers | detox/ios/Detox/DetoxManager.swift:766-782 | Present, non-NaN coordinates pass through unchanged. |
| Dispatcher.NormalizedPointIdempotent | detox/ios/Detox/DetoxManager.swift:766-782 | Normalizing an already normalized point, with no preference read as NaN, gives the same point. |
| Dispatcher.DecodeSpeed | detox/ios/Detox/DetoxManager.swift:587-599 | The speed decodes exactly when it is absent, "slow" or "fast": 0.1 for slow, 0.5 otherwise. Any other string traps with that string. |
| Dispatcher.HoldDuration | detox/ios/Detox/DetoxManager.swift:601-606 | The final hold is the converted `holdDuration` when given, and one second otherwise. |
| Dispatcher.ResolveParam | detox/ios/Detox/DetoxManager.swift:448-455 | A resolved element is a view carrying the identifier parameter. |
| Dispatcher.DeliverPayloadEffect | detox/ios/Detox/DetoxManager.swift:398-438 | A URL wins over a notification, which wins over an activity. An unparsable URL traps. No payload traps. Every effect carries `delayPayload`, which defaults to false. |
| Dispatcher.UrlWinsOverFiles | detox/ios/Detox/DetoxManager.swift:398-438 | A request holding a URL has the same outcome whatever notification or activity it also carries, and any success opens the URL. |
| Dispatcher.NotificationWinsOverActivity | detox/ios/Detox/DetoxManager.swift:398-438 | Without a URL, a request holding a notification delivers it, whatever activity it also carries. |
| Dispatcher.CaptureHierarchy | detox/ios/Detox/DetoxManager.swift:676-700 | Capture traps exactly when the destination's last path component lacks `.viewhierarchy`. If dumping is disabled, nothing is dumped and the reply carries the fixed error. Otherwise the hierarchy is dumped to the path, and the reply carries the dumper's error or the path. |
| Dispatcher.DefaultHierarchyPathAccepted | detox/ios/Detox/DetoxManager.swift:679-684 | Without a given destination, and with a UUID that holds no `/`, the generated temporary path always passes the extension check. |
| Dispatcher.ElementEntries | detox/ios/Detox/DetoxManager.swift:260-274 | The report succeeds exactly when every kept view has an identifier. It then holds one identifier-and-screen-frame object per view, in order. |
| Dispatcher.QueryReply | detox/ios/Detox/DetoxManager.swift:250-274 | A query's reply is `elementsDidFound` with the request's id. It succeeds exactly when every kept container of the found views has an identifier. Its one parameter lists their entries in found order. Otherwise it traps with the entries' error. |
| Dispatcher.QueryOf | detox/ios/Detox/DetoxManager.swift:236-350 | A text query needs `text` and `isRegex`, a type query needs `type`, and a traits query needs `traits` naming only known traits. Each builds its query from them. A missing or ill-typed parameter traps on the first such key. |
| Dispatcher.TypeQuerySelects | detox/ios/Detox/DetoxManager.swift:279-297 | A type name that resolves to a class selects exactly the views of that kind, whatever they conform to. Otherwise a protocol name selects exactly the conforming views. Any other name selects nothing. |
| Dispatcher.AllOf | detox/ios/Detox/DetoxManager.swift:218-226 | Mapping with a closure that may trap succeeds exactly when every step succeeds, giving the values in order. Otherwise it fails with the first failing step's error. |
| Dispatcher.ResolveAll | detox/ios/Detox/DetoxManager.swift:217-226 | It succeeds exactly when every requested element resolves. The k-th result is the k-th element's resolution. |
| Dispatcher.DecodeDrag | detox/ios/Detox/DetoxManager.swift:558-606 | It succeeds exactly when both elements resolve, `duration` is a number and the speed is known. The gesture carries the two resolved views in their roles, the duration, both NaN-normalized points, the decoded speed and the default or converted hold. An unknown speed traps. |
| Dispatcher.HandleReload | detox/ios/Detox/DetoxManager.swift:192-204 | Only a React Native app is reloaded, on the idle queue, and the reply then waits for the bundle to load. Any other app is answered at once. |
| Dispatcher.HandleGetAttributes | detox/ios/Detox/DetoxManager.swift:216-234 | It answers exactly when `elementIDsAndFrames` is a list of objects and every element resolves. The reply then holds exactly one attribute dictionary per requested element. The k-th is the attributes of the view the k-th element resolves to. |
| Dispatcher.HandleQuery | detox/ios/Detox/DetoxManager.swift:236-386 | The element queries run on the idle queue, with no effect. They succeed exactly when the parameters build a query and every kept container of the found views has an identifier. The reply lists those containers' entries in found order. A traits query that succeeds named only known traits. |
| Dispatcher.HandleStatus | detox/ios/Detox/DetoxManager.swift:388-396 | The status goes out directly, not through the idle gate. Its parameters are the message id and the tracker's status. |
| Dispatcher.HandleDeliverPayload | detox/ios/Detox/DetoxManager.swift:398-446 | The payload's effect is performed once. It waits for idle exactly when not delayed. Traps are those of the payload decoding. |
| Dispatcher.HandleSetDatePicker | detox/ios/Detox/DetoxManager.swift:448-465 | It answers exactly when the element resolves to a date picker and the time is a number. A resolved view that is not a date picker traps before the time is read. Otherwise the resolved picker itself is adjusted to the given time. |
| Dispatcher.HandleAccessibilityAction | detox/ios/Detox/DetoxManager.swift:467-497 | It answers exactly when the element resolves and `actionName` is a string, whether or not the action exists. The named custom action runs exactly when the element has one. The reply's `didFound` says whether it did. |
| Dispatcher.HandleEvaluateJavaScript | detox/ios/Detox/DetoxManager.swift:523-556 | It answers exactly when the three parameters have their types and the identifier resolves to a web view. The reply waits for the web view to finish loading. It carries `result` and `error` each exactly when the evaluation produced it. |
| Dispatcher.HandleLongPressAndDrag | detox/ios/Detox/DetoxManager.swift:558-620 | The handler succeeds exactly when the gesture decodes. It then performs exactly that gesture. |
| Dispatcher.HandleVerifyVisibility | detox/ios/Detox/DetoxManager.swift:622-635 | It answers exactly when the element resolves and `threshold` is a number. `isVisible` is the resolved view's visibility at that threshold. |
| Dispatcher.HandleVerifyText | detox/ios/Detox/DetoxManager.swift:637-652 | It answers exactly when the element resolves and `text` is a string. `hasText` is exact equality of the resolved view's text with it. |
| Dispatcher.HandleIsFocused | detox/ios/Detox/DetoxManager.swift:654-668 | It answers exactly when the element resolves. `isFocused` is the resolved view's focus state. |
| Dispatcher.HandleSetRecordingState | detox/ios/Detox/DetoxManager.swift:670-674 | With a recording path, recording starts and the reply is sent at once. Without one, recording stops and the reply waits for the stop callback. |
| Dispatcher.HandleCaptureViewHierarchy | detox/ios/Detox/DetoxManager.swift:676-700 | The handler succeeds exactly when the capture passes its precondition. The reply parameters are the capture's. |
| Dispatcher.HandleKind | detox/ios/Detox/DetoxManager.swift:191-701 | For every known action, a reply carries the request's id and the action's reply name. Only the status request bypasses the idle gate. Only `setSyncSettings` changes the settings, and it does so exactly as `Sync.SetSyncSettings`. |
| Dispatcher.HandleAction | detox/ios/Detox/DetoxManager.swift:190-705 | An action type outside the switch traps with that type, and no reply is sent. A known type is handled by its handler. |
| Dispatcher.DispatchAnswersRequest | detox/ios/Detox/DetoxManager.swift:190-705 | At the wire level, every reply answers a known action type under that type's reply name and id. It is idle-gated exactly unless the type is `requestCurrentStatus`. It leaves settings alone unless the type is `setSyncSettings`. |
| ElementErrors.ParseOpening | detox/ios/DetoxTester/DetoxTester/Actions/XCUIElement/XCUIElement+Error.swift:37-72 | Each case's opening words identify the case, whatever follows them. |
| ElementErrors.ParseDescribe | detox/ios/DetoxTester/DetoxTester/Actions/XCUIElement/XCUIElement+Error.swift:37-72 | Every one of the seven descriptions names its case: the case can be read back from the text. |
| ElementErrors.DescriptionsSeparateCases | detox/ios/DetoxTester/DetoxTester/Actions/XCUIElement/XCUIElement+Error.swift:37-72 | Errors of different cases never share a description. |
| ElementErrors.HitAndScrollShowIdentifier | detox/ios/DetoxTester/DetoxTester/Actions/XCUIElement/XCUIElement+Error.swift:49-61 | The not-hittable, not-scrollable and failed-to-scroll messages quote the clean identifier if the element exists, and the debug description otherwise. |
| ElementErrors.HitMessageDeterminesShownIdentifier | detox/ios/DetoxTester/DetoxTester/Actions/XCUIElement/XCUIElement+Error.swift:49-52 | Two not-hittable messages are equal exactly when they show the same identifier text. |
| ElementErrors.FocusMessageUsesCleanIdentifier | detox/ios/DetoxTester/DetoxTester/Actions/XCUIElement/XCUIElement+Error.swift:42-44 | The focus message quotes the clean identifier whether or not the element exists, and depends on nothing else of the element. |
| ElementErrors.PasteMessageNamesAction | detox/ios/DetoxTester/DetoxTester/Actions/XCUIElement/XCUIElement+Error.swift:46-47 | The paste message contains the failing action verbatim. |
| ElementErrors.ScriptMessageNamesScriptAndArgs | detox/ios/DetoxTester/DetoxTester/Actions/XCUIElement/XCUIElement+Error.swift:63-70 | The script message contains the quoted script and the printed argument list. |
| Scroll.ScrollElement | detox/ios/DetoxTester/DetoxTester/Actions/XCUIElement/XCUIElement+scroll.swift:14-49 | An element that is not hittable fails with `elementNotScrollable` before any swipe. `.withParams` runs the single offset swipe. `.to` runs the edge loop, with the start positions passed through. The loop fails with `elementNotScrollable` after one swipe exactly when that swipe changes nothing. It succeeds at the first still pair of snapshots, or runs out of fuel after that many moving swipes. |
| Scroll.ScrollToEdge | detox/ios/DetoxTester/DetoxTester/Actions/XCUIElement/XCUIElement+scroll.swift:51-82 | Every swipe is the same edge swipe. The loop fails exactly when the first swipe changes nothing. It succeeds after swipe k ≥ 2 when snapshot k equals snapshot k-1, with every earlier pair of consecutive snapshots differing. Otherwise the fuel runs out after that many swipes, each of which changed the screen. |
| Scroll.FirstStillIsUnique | detox/ios/DetoxTester/DetoxTester/Actions/XCUIElement/XCUIElement+scroll.swift:61-81 | The swipe at which the loop stops is unique. |
| Scroll.EdgeDragKeepsOneAxis | detox/ios/DetoxTester/DetoxTester/Actions/XCUIElement/XCUIElement+scroll.swift:84-142 | An edge swipe is a 0.05 s press and a fast drag with no hold. Bottom drags to y = 0 and top to y = 1, keeping the start x. Right drags to x = 0 and left to x = 1, keeping the start y. Opposite edges drag to different points. It is stated of `Scroll.EdgeSwipe`, the model of the edge-swipe builder. |
| Scroll.ScrollByOffset | detox/ios/DetoxTester/DetoxTester/Actions/XCUIElement/XCUIElement+scroll.swift:144-171 | Exactly one slow swipe, in the converted direction and from the start point. Its offset times the app extent on that axis is the requested offset. It fails with `elementNotScrollable` exactly when the before and after snapshots are equal. |
| Scroll.Normalize | detox/ios/DetoxTester/DetoxTester/Actions/XCUIElement/XCUIElement+scroll.swift:173-188 | The fraction, scaled by the app height for up/down or the width for left/right, gives back the offset. |
| Scroll.SwipeDirectionBijective | detox/ios/DetoxTester/DetoxTester/Actions/XCUIElement/XCUIElement+scroll.swift:191-207 | The direction conversion is a bijection with inverse `FromSwipeDirection`, and it always reverses the direction. |
| Keyboard.HasKeyboardFocusOnTextField | detox/ios/DetoxTester/DetoxTester/Actions/XCUIElement/XCUIElement+Keyboard.swift:13-18 | With an inner text field, only the first field's focus counts, not the element's own. Without one, the element's own focus counts. |
| Keyboard.FocusKeyboard | detox/ios/DetoxTester/DetoxTester/Actions/XCUIElement/XCUIElement+Keyboard.swift:42-54 | An element with keyboard focus is left alone. Otherwise it gets exactly one press at (0.9, 0.9). It fails with `failedToFocusKeyboardOnElement` exactly when focus is still missing, with no second attempt. |
| Keyboard.TapKey | detox/ios/DetoxTester/DetoxTester/Actions/XCUIElement/XCUIElement+Keyboard.swift:29-39 | Focus comes first. A failed focus types nothing. A successful one is followed by exactly the requested key. |
| Keyboard.TapKeyTypesOnce | detox/ios/DetoxTester/DetoxTester/Actions/XCUIElement/XCUIElement+Keyboard.swift:29-39 | A successful key tap types one key, as its last event, and no key before it. |
| Keyboard.TapOnSelectAllIfPresent | detox/ios/DetoxTester/DetoxTester/Actions/XCUIElement/XCUIElement+Keyboard.swift:109-121 | "Select All" is tapped, followed by the completion, only over a non-empty string value and only when the item appears. |
| Keyboard.SelectAllTappedWhen | detox/ios/DetoxTester/DetoxTester/Actions/XCUIElement/XCUIElement+Keyboard.swift:81-121 | Selecting all taps "Select All" exactly when focus succeeds, the value is a non-empty string and the item appears. It is stated of `Keyboard.SelectAllText`, the model of `selectAllText` as written. |
| Keyboard.TapOnPasteText | detox/ios/DetoxTester/DetoxTester/Actions/XCUIElement/XCUIElement+Keyboard.swift:123-131 | A missing "Paste" item throws `failedToPasteNewText("paste")` with no event. Otherwise "Paste" is tapped, then the completion runs. |
| Keyboard.AddText | detox/ios/DetoxTester/DetoxTester/Actions/XCUIElement/XCUIElement+Keyboard.swift:96-100 | Typing fails exactly when focusing does. It then types the text once, after focusing. |
| Keyboard.ChangeOwnText | detox/ios/DetoxTester/DetoxTester/Actions/XCUIElement/XCUIElement+Keyboard.swift:64-77 | On a field without inner text fields, a non-string value throws `invalidKeyboardTypeActionNonStringValue` with no event. Otherwise clear, type and replace go to their helpers. |
| Keyboard.ChangeTextDelegates | detox/ios/DetoxTester/DetoxTester/Actions/XCUIElement/XCUIElement+Keyboard.swift:57-78 | The whole change happens on the innermost first text field. It is stated of `Keyboard.ChangeText`, the model of `changeText`. |
| Keyboard.NonStringValueChangesNothing | detox/ios/DetoxTester/DetoxTester/Actions/XCUIElement/XCUIElement+Keyboard.swift:57-66 | If the acted-on field's value is not a string, the change throws before any press or keystroke. |
| Keyboard.ClearNeverTypesDelete | detox/ios/DetoxTester/DetoxTester/Actions/XCUIElement/XCUIElement+Keyboard.swift:81-94 | As written, clearing never types the delete key, because `selectAllText` drops its completion. It is stated of `Keyboard.DeleteText`, the model of `deleteText` as written, which calls `Keyboard.SelectAllText`. |
| Keyboard.ClearLeavesTextSelected | detox/ios/DetoxTester/DetoxTester/Actions/XCUIElement/XCUIElement+Keyboard.swift:81-94 | On a focused field holding "abc" with every menu item showing, clearing is exactly a short press and a "Select All" tap. |
| Keyboard.CorrectedClearDeletesSelection | detox/ios/DetoxTester/DetoxTester/Actions/XCUIElement/XCUIElement+Keyboard.swift:81-121 | With the completion passed on, clearing types delete exactly when "Select All" was tapped, right after the tap. That happens exactly when focus succeeds over a non-empty string and the item appears. It is stated of `Keyboard.DeleteTextPassingCompletion`, the corrected clear, which calls `Keyboard.SelectAllTextPassingCompletion`. |
| Keyboard.ReplaceSequence | detox/ios/DetoxTester/DetoxTester/Actions/XCUIElement/XCUIElement+Keyboard.swift:102-138 | Replacing sets the pasteboard first. It succeeds exactly when focus succeeds and "Paste" appears. A missing "Paste" throws `failedToPasteNewText("paste")`. "Allow Paste" is tapped exactly when pasting went ahead and the alert appears. It is stated of `Keyboard.DeleteAndPasteText`, the model of `deleteAndPasteText`, and its third clause covers `Keyboard.PressOnAllowPaste`. |
| ExecutorMessage.ParseOpening | detox/ios/DetoxTester/DetoxTester/Tester/Executor/WhiteBoxExecutor+Message.swift:94-170 | Each of the 19 cases' opening words identify the case, whatever follows. |
| ExecutorMessage.ParseDescribe | detox/ios/DetoxTester/DetoxTester/Tester/Executor/WhiteBoxExecutor+Message.swift:94-170 | Every description names its case, however values print. |
| ExecutorMessage.DescriptionsSeparateCases | detox/ios/DetoxTester/DetoxTester/Tester/Executor/WhiteBoxExecutor+Message.swift:94-170 | Messages of different cases never log the same description. |
| ExecutorMessage.IsRegexRendered | detox/ios/DetoxTester/DetoxTester/Tester/Executor/WhiteBoxExecutor+Message.swift:138-139 | The text search's description ends in ` (is-regex: true)` exactly when `isRegex` holds, and in ` (is-regex: false)` exactly when it does not. |
| ExecutorMessage.FlagsDiffer | detox/ios/DetoxTester/DetoxTester/Tester/Executor/WhiteBoxExecutor+Message.swift:139 | Neither rendered flag is a suffix of the other. |
| ExecutorMessage.DeliverPayloadDescriptionIsConstant | detox/ios/DetoxTester/DetoxTester/Tester/Executor/WhiteBoxExecutor+Message.swift:99-100 | The payload description is "deliver payload", whatever the five fields. |
| ExecutorMessage.LongPressDescriptionDependsOnElementOnly | detox/ios/DetoxTester/DetoxTester/Tester/Executor/WhiteBoxExecutor+Message.swift:150-155 | Two long-press descriptions are equal exactly when the dragged elements' clean identifiers are. The other eight fields do not matter. |
| ExecutorMessage.JavaScriptDescriptionOmitsScript | detox/ios/DetoxTester/DetoxTester/Tester/Executor/WhiteBoxExecutor+Message.swift:166-168 | The script never affects the JavaScript description, which ends by quoting the web view's clean identifier. |
| ExecutorMessage.SyncSettingsDescriptionShowsAllFields | detox/ios/DetoxTester/DetoxTester/Tester/Executor/WhiteBoxExecutor+Message.swift:111-116 | The sync-settings description contains each of the three rendered optional fields. |
| ExecutorMessage.SubjectQuotedLast | detox/ios/DetoxTester/DetoxTester/Tester/Executor/WhiteBoxExecutor+Message.swift:118-168 | Each of the seven single-element messages ends by quoting its element's clean identifier. |
| ExecutorMessage.Identifiers | detox/ios/DetoxTester/DetoxTester/Tester/Executor/WhiteBoxExecutor+Message.swift:157-159 | The attributes request lists each element's plain identifier, in order. |
| ExecutorMessage.AttributesDescriptionListsIdentifiers | detox/ios/DetoxTester/DetoxTester/Tester/Executor/WhiteBoxExecutor+Message.swift:157-159 | The attributes description ends with the printed list of identifiers. |
| ExecutorMessage.ParameterlessDescriptions | detox/ios/DetoxTester/DetoxTester/Tester/Executor/WhiteBoxExecutor+Message.swift:96-148 | The four cases without parameters log fixed texts. |
| WebPredicate.SetterOf | detox/ios/DetoxInvokeHandler/DetoxInvokeHandlerTests/MessageBuilder+webPredicate.swift:15-57 | A recovered setter stores the tag it was recovered from. |
| WebPredicate.SetterOfTag | detox/ios/DetoxInvokeHandler/DetoxInvokeHandlerTests/MessageBuilder+webPredicate.swift:15-57 | Every setter's tag leads back to that setter. |
| WebPredicate.TagsDistinct | detox/ios/DetoxInvokeHandler/DetoxInvokeHandlerTests/MessageBuilder+webPredicate.swift:15-57 | The eleven tags are pairwise distinct. |
| WebPredicate.Predicate | detox/ios/DetoxInvokeHandler/DetoxInvokeHandlerTests/MessageBuilder+webPredicate.swift:60-63 | The stored predicate has exactly the keys "type" and "value", holding the tag and the value. |
| WebPredicate.SetWebPredicate | detox/ios/DetoxInvokeHandler/DetoxInvokeHandlerTests/MessageBuilder+webPredicate.swift:59-66 | Only "webPredicate" is written, and every other key keeps its value. |
| WebPredicate.WebAt | detox/ios/DetoxInvokeHandler/DetoxInvokeHandlerTests/MessageBuilder+webPredicate.swift:10-13 | Only "webAtIndex" is written, with the index, and every other key keeps its value. |
| WebPredicate.SetThenRead | detox/ios/DetoxInvokeHandler/DetoxInvokeHandlerTests/MessageBuilder+webPredicate.swift:15-66 | The setter and value can be read back from the built message. |
| WebPredicate.LastSetterWins | detox/ios/DetoxInvokeHandler/DetoxInvokeHandlerTests/MessageBuilder+webPredicate.swift:59-66 | Of two setters the last one wins. Setting the same predicate twice is setting it once. |
| WebPredicate.IndexAndPredicateIndependent | detox/ios/DetoxInvokeHandler/DetoxInvokeHandlerTests/MessageBuilder+webPredicate.swift:10-66 | `webAt` and a predicate setter commute, and the predicate can still be read back after the index is set. |

## Findings

| source | as written | input that shows it | evidently intended | confidence | as-written member | corrected member |
|---|---|---|---|---|---|---|
| detox/ios/DetoxTester/DetoxTester/Actions/XCUIElement/XCUIElement+Keyboard.swift:81-94 | `selectAllText` accepts a completion but passes `nil` to `tapOnSelectAllIfPresent`, so the delete-key closure of `deleteText` never runs and `clear` only selects the text | a focused text field holding "abc" with "Select All" showing: `changeText(.clear)` presses and taps "Select All", and no delete key is typed | the completion is handed on, so the delete key is typed right after "Select All" | high; not executed | Keyboard.ClearLeavesTextSelected | Keyboard.CorrectedClearDeletesSelection |

The rest of the model keeps `changeText` as written. The corrected clear is `Keyboard.DeleteTextPassingCompletion`, built on `Keyboard.SelectAllTextPassingCompletion`. `Keyboard.CorrectedClearDeletesSelection` states its behaviour.

## Left out

- The web-socket transport, connection and reconnection, and `safeSend`'s idle-queue marshalling are I/O and concurrency. A dispatch records only whether the work and the reply wait for idle (`workWhenIdle`, `replyWhenIdle`) and what the reply waits for (`replyWhen`).
- The idle tracker, recorder, hierarchy dumper, app delegate proxy, React Native reload, web-view KVO and JavaScript evaluation are foreign collaborators. They appear as effects and oracle fields of `Dispatcher.App`.
- `UserDefaults` is an input: `hierarchyDumpDisabled`, and the launch recording path and interval.
- `Thread.sleep` for `waitForDebugger` is a clock. Only its forced cast is modelled.
- `NSUUID` and `NSTemporaryDirectory` are inputs of `Dispatcher.App`.
- `notifyOnCrash`, `appDidLaunch`, `appDidEnterBackground`, `start` and the socket delegate callbacks other than the action one are not part of this model: they are lifecycle and transport code outside the decision logic.
- Logging (`log`, `uiLog`, `logProperties`) has no effect on behaviour and is left out.
- Floating point is modelled with `real`. `Double.nan` only enters through `getNormalizedPoint`'s input type: decoded JSON numbers are finite, so `OptFloat` never yields NaN. IEEE rounding is not modelled.
- `toSeconds()` on the hold duration, `dtx_isVisible`, `dtx_isFocused`, `dtx_attributes`, `dtx_text`, the screen-coordinate conversion and the status report are oracles.
- `matchesJSRegex` is the uninterpreted `Runtime.regexMatches`.
- The trait bit values are UIKit's constants. The code names them but does not define them.
- `dtx_findViewsInKeySceneWindows` is modelled as a walk in a fixed depth-first order over a tree whose superviews precede their subviews.
- Resolver.FindElement: Swift's `sorted` is not guaranteed stable. The model keeps equally scored candidates in walk order.
- `URL(string:)` is the oracle `parsesAsUrl`. `URL(fileURLWithPath:)` is treated as the path itself: no normalization beyond trailing slashes when taking the last path component.
- Swift's printing of values in descriptions is an oracle (`ExecutorMessage.Printer`) for `Double`, `Date` and `[AccessibilityTrait]`. String debug printing is quoting without escaping.
- XCUI primitives are oracles or recorded events: screenshots, presses and drags, `waitForExistence` with its 0.5 s timeout, the pasteboard, localization of menu titles, `coordinate(normalizedOffsetX:normalizedOffsetY:)` defaults for a nil offset, and the app frame.
- Scroll.ScrollToEdge: the source loops until the screen stops changing. The model bounds the swipes by `fuel` and reports `OutOfFuel` when the screen is still changing after `fuel` swipes.
- Scroll.Normalize: the app's width and height are assumed positive (`Extent`). A zero extent would divide by zero in the source.
- Dispatcher.ResolveParam states that the result carries the identifier. The ranking among several candidates is stated by `Resolver.FindElement`.
