/**
 * The synchronization settings of the idle tracker as the dispatcher
 * writes them: once at launch from a settings dictionary, and on every
 * `setSyncSettings` message. The tracker itself is not part of this model;
 * only the writes are.
 */
module Sync {
  import opened Wrappers
  import opened Params

  datatype SyncSettings = SyncSettings(
    delayedActionTrackingDuration: real,   // maximumAllowedDelayedActionTrackingDuration
    timerIntervalTrackingDuration: real,   // maximumTimerIntervalTrackingDuration
    urlBlacklist: seq<string>,
    synchronizationDisabled: bool)

  // ----- launch time -----

  type Entry = (string, Value)

  /** One dictionary entry of the launch settings; an ill-typed value of a known key traps. */
  function LaunchStep(s: SyncSettings, e: Entry): Result<SyncSettings, Fatal> {
    var (key, value) := e;
    match key
    case "maxTimerWait" =>
      (match AsNumber(value)
       case None => Failure(BadCast(key))
       case Some(n) =>
         var wait := n.doubleValue / 1000.0;
         Success(s.(delayedActionTrackingDuration := wait, timerIntervalTrackingDuration := wait)))
    case "waitForDebugger" =>
      if AsNumber(value).Some? then Success(s) else Failure(BadCast(key))
    case "blacklistURLs" =>
      (match AsStrings(value)
       case None => Failure(BadCast(key))
       case Some(urls) => Success(s.(urlBlacklist := urls)))
    case "enabled" =>
      (match AsNumber(value)
       case None => Failure(BadCast(key))
       case Some(n) => Success(s.(synchronizationDisabled := !n.boolValue)))
    case _ => Success(s)
  }

  /** `setSynchronizationSettings`: the entries in the dictionary's iteration order. */
  function ApplyLaunchSettings(s: SyncSettings, entries: seq<Entry>): Result<SyncSettings, Fatal>
    decreases |entries|
  {
    if |entries| == 0 then Success(s)
    else match LaunchStep(s, entries[0])
      case Failure(f) => Failure(f)
      case Success(s') => ApplyLaunchSettings(s', entries[1..])
  }

  predicate DistinctKeys(entries: seq<Entry>) {
    forall i, j | 0 <= i < j < |entries| :: entries[i].0 != entries[j].0
  }

  function ToMap(entries: seq<Entry>): map<string, Value>
    decreases |entries|
  {
    if |entries| == 0 then map[] else ToMap(entries[1..])[entries[0].0 := entries[0].1]
  }

  /** The value of a known key does not have the type its handler forces. */
  predicate IllTyped(key: string, value: Value) {
    match key
    case "maxTimerWait" => AsNumber(value).None?
    case "waitForDebugger" => AsNumber(value).None?
    case "blacklistURLs" => AsStrings(value).None?
    case "enabled" => AsNumber(value).None?
    case _ => false
  }

  predicate WellTyped(m: map<string, Value>) {
    forall k | k in m :: !IllTyped(k, m[k])
  }

  /**
   * Reference reading of the launch settings, key by key and independent of
   * any order: the timer wait is given in milliseconds and stored in
   * seconds in both durations, `enabled` is stored negated, the URL list
   * as given, and every other key changes nothing.
   */
  function LaunchSettingsOf(s: SyncSettings, m: map<string, Value>): SyncSettings
    requires WellTyped(m)
  {
    var wait := if "maxTimerWait" in m then
        assert !IllTyped("maxTimerWait", m["maxTimerWait"]);
        Some(AsNumber(m["maxTimerWait"]).value.doubleValue / 1000.0)
      else None;
    SyncSettings(
      wait.GetOr(s.delayedActionTrackingDuration),
      wait.GetOr(s.timerIntervalTrackingDuration),
      if "blacklistURLs" in m then
        assert !IllTyped("blacklistURLs", m["blacklistURLs"]);
        AsStrings(m["blacklistURLs"]).value
      else s.urlBlacklist,
      if "enabled" in m then
        assert !IllTyped("enabled", m["enabled"]);
        !AsNumber(m["enabled"]).value.boolValue
      else s.synchronizationDisabled)
  }

  lemma ToMapKeys(entries: seq<Entry>)
    ensures forall k :: k in ToMap(entries) <==> exists i | 0 <= i < |entries| :: entries[i].0 == k
    decreases |entries|
  {
    if |entries| > 0 {
      ToMapKeys(entries[1..]);
      assert forall i | 1 <= i < |entries| :: entries[1..][i - 1] == entries[i];
    }
  }

  lemma StepThenRest(s: SyncSettings, e: Entry, m: map<string, Value>)
    requires e.0 !in m
    requires !IllTyped(e.0, e.1)
    requires WellTyped(m)
    ensures LaunchStep(s, e).Success?
    ensures LaunchSettingsOf(LaunchStep(s, e).value, m) == LaunchSettingsOf(s, m[e.0 := e.1])
  {
  }

  /**
   * The launch settings succeed exactly when every known key is well typed,
   * and then they equal the order-free reading above; a trap names an
   * ill-typed key.
   */
  lemma {:induction false} LaunchSettingsMeaning(s: SyncSettings, entries: seq<Entry>)
    requires DistinctKeys(entries)
    ensures ApplyLaunchSettings(s, entries).Success? <==> WellTyped(ToMap(entries))
    ensures ApplyLaunchSettings(s, entries).Success? ==>
      WellTyped(ToMap(entries)) &&
      ApplyLaunchSettings(s, entries).value == LaunchSettingsOf(s, ToMap(entries))
    ensures ApplyLaunchSettings(s, entries).Failure? ==>
      exists k | k in ToMap(entries) ::
        IllTyped(k, ToMap(entries)[k]) && ApplyLaunchSettings(s, entries).error == BadCast(k)
    decreases |entries|
  {
    if |entries| > 0 {
      var e, rest := entries[0], entries[1..];
      assert forall i | 1 <= i < |entries| :: rest[i - 1] == entries[i];
      assert DistinctKeys(rest);
      ToMapKeys(rest);
      assert e.0 !in ToMap(rest);
      var m := ToMap(entries);
      assert m == ToMap(rest)[e.0 := e.1];
      match LaunchStep(s, e)
      case Failure(f) =>
        assert ApplyLaunchSettings(s, entries) == Failure(f);
        assert IllTyped(e.0, e.1) && f == BadCast(e.0);
        assert e.0 in m && m[e.0] == e.1;

      case Success(s') =>
        assert !IllTyped(e.0, e.1);
        LaunchSettingsMeaning(s', rest);
        assert forall k | k in ToMap(rest) :: k in m && m[k] == ToMap(rest)[k];
        if ApplyLaunchSettings(s', rest).Success? {
          StepThenRest(s, e, ToMap(rest));
        } else {
          var k :| k in ToMap(rest) && IllTyped(k, ToMap(rest)[k]) && ApplyLaunchSettings(s', rest).error == BadCast(k);
          assert k in m && m[k] == ToMap(rest)[k];
        }
    }
  }

  /** Two iteration orders of the same dictionary give the same settings. */
  lemma LaunchOrderIrrelevant(s: SyncSettings, entries: seq<Entry>, entries': seq<Entry>)
    requires DistinctKeys(entries) && DistinctKeys(entries')
    requires ToMap(entries) == ToMap(entries')
    ensures ApplyLaunchSettings(s, entries).Success? == ApplyLaunchSettings(s, entries').Success?
    ensures ApplyLaunchSettings(s, entries).Success? ==>
      ApplyLaunchSettings(s, entries).value == ApplyLaunchSettings(s, entries').value
  {
    LaunchSettingsMeaning(s, entries);
    LaunchSettingsMeaning(s, entries');
  }

  /** Keys the handler does not know leave every setting unchanged. */
  lemma UnknownKeysIgnored(s: SyncSettings, entries: seq<Entry>)
    requires forall i | 0 <= i < |entries| ::
      entries[i].0 !in {"maxTimerWait", "waitForDebugger", "blacklistURLs", "enabled"}
    ensures ApplyLaunchSettings(s, entries) == Success(s)
    decreases |entries|
  {
    if |entries| > 0 {
      assert forall i | 1 <= i < |entries| :: entries[1..][i - 1] == entries[i];
      UnknownKeysIgnored(s, entries[1..]);
    }
  }

  // ----- setSyncSettings message -----

  /**
   * The `setSyncSettings` handler: each conditionally cast field, when
   * present, is written as received (the timer wait is not rescaled and
   * `disabled` is not negated); the reply always follows.
   */
  function SetSyncSettings(s: SyncSettings, params: Params, messageId: int): (r: (SyncSettings, Reply))
    ensures r.1 == Reply("didSetSyncSettings", map[], messageId)
    ensures OptNumber(params, "maxTimerWait").None? ==>
      r.0.delayedActionTrackingDuration == s.delayedActionTrackingDuration &&
      r.0.timerIntervalTrackingDuration == s.timerIntervalTrackingDuration
    ensures OptNumber(params, "maxTimerWait").Some? ==>
      var wait := OptNumber(params, "maxTimerWait").value.doubleValue;
      r.0.delayedActionTrackingDuration == wait && r.0.timerIntervalTrackingDuration == wait
    ensures r.0.urlBlacklist == OptStrings(params, "blacklistURLs").GetOr(s.urlBlacklist)
    ensures OptNumber(params, "disabled").None? ==> r.0.synchronizationDisabled == s.synchronizationDisabled
    ensures OptNumber(params, "disabled").Some? ==>
      r.0.synchronizationDisabled == OptNumber(params, "disabled").value.boolValue
  {
    var s1 := match OptNumber(params, "maxTimerWait")
      case Some(n) => s.(delayedActionTrackingDuration := n.doubleValue, timerIntervalTrackingDuration := n.doubleValue)
      case None => s;
    var s2 := match OptStrings(params, "blacklistURLs")
      case Some(urls) => s1.(urlBlacklist := urls)
      case None => s1;
    var s3 := match OptNumber(params, "disabled")
      case Some(d) => s2.(synchronizationDisabled := d.boolValue)
      case None => s2;
    (s3, Reply("didSetSyncSettings", map[], messageId))
  }

  /** Sending the same settings message twice has the effect of sending it once. */
  lemma SetSyncSettingsIdempotent(s: SyncSettings, params: Params, id1: int, id2: int)
    ensures SetSyncSettings(SetSyncSettings(s, params, id1).0, params, id2).0 == SetSyncSettings(s, params, id1).0
  {
  }

  /** A message with none of the three fields changes nothing. */
  lemma EmptyMessageKeepsSettings(s: SyncSettings, messageId: int)
    ensures SetSyncSettings(s, map[], messageId).0 == s
  {
  }

  /**
   * The two writers agree on the blacklist and on the disabled flag once
   * `enabled` is read as its negation, and differ on the timer wait by the
   * factor 1000: the message carries seconds, the launch dictionary
   * milliseconds.
   */
  lemma LaunchAgreesWithMessage(s: SyncSettings, wait: real, urls: seq<string>, enabled: bool, messageId: int)
    ensures var launch := ApplyLaunchSettings(s, [
        ("maxTimerWait", Number(wait)), ("blacklistURLs", List(seq(|urls|, i requires 0 <= i < |urls| => Text(urls[i])))),
        ("enabled", Boolean(enabled))]);
      var message := SetSyncSettings(s, map[
        "maxTimerWait" := Number(wait / 1000.0), "blacklistURLs" := List(seq(|urls|, i requires 0 <= i < |urls| => Text(urls[i]))),
        "disabled" := Boolean(!enabled)], messageId).0;
      launch == Success(message)
  {
    var list := List(seq(|urls|, i requires 0 <= i < |urls| => Text(urls[i])));
    assert AsStrings(list).Some?;
    assert AsStrings(list).value == urls;
    var s1 := s.(delayedActionTrackingDuration := wait / 1000.0, timerIntervalTrackingDuration := wait / 1000.0);
    assert LaunchStep(s, ("maxTimerWait", Number(wait))) == Success(s1);
    var s2 := s1.(urlBlacklist := urls);
    assert LaunchStep(s1, ("blacklistURLs", list)) == Success(s2);
    var s3 := s2.(synchronizationDisabled := !enabled);
    assert LaunchStep(s2, ("enabled", Boolean(enabled))) == Success(s3);
    var params := map["maxTimerWait" := Number(wait / 1000.0), "blacklistURLs" := list, "disabled" := Boolean(!enabled)];
    assert OptNumber(params, "maxTimerWait") == Some(NumberValue(wait / 1000.0, wait / 1000.0 != 0.0));
    assert OptStrings(params, "blacklistURLs") == Some(urls);
    assert OptNumber(params, "disabled").value.boolValue == !enabled;
    assert SetSyncSettings(s, params, messageId).0 == s3;
    var es := [("maxTimerWait", Number(wait)), ("blacklistURLs", list), ("enabled", Boolean(enabled))];
    assert es[1..][1..] == [("enabled", Boolean(enabled))];
    assert ApplyLaunchSettings(s3, es[1..][1..][1..]) == Success(s3);
    assert ApplyLaunchSettings(s2, es[1..][1..]) == Success(s3);
    assert ApplyLaunchSettings(s1, es[1..]) == Success(s3);
    assert ApplyLaunchSettings(s, es) == Success(s3);
  }
}
