/**
 * The notification listener service: a call-state tracker that detects missed
 * calls from telephony state changes, a relay that mirrors the active
 * notifications to the one registered screen, and the command receiver that
 * registers screens and dismisses notifications.
 *
 * The platform is reduced to parameters: what getActiveNotifications() returns
 * is `active` (None when it returns null or throws SecurityException), the
 * PackageManager's application labels are the map `labels`, and whether the
 * telephony subscription succeeds is `telephonyReady`.  What the service hands
 * back to the platform is recorded in ghost logs: the call events it reports,
 * the broadcasts it relays and the notification keys it cancels.
 */
module NotificationListener {
  import opened Wrappers
  import Decimal

  // TelephonyManager call states
  const CALL_STATE_IDLE: int := 0
  const CALL_STATE_RINGING: int := 1
  const CALL_STATE_OFFHOOK: int := 2

  // The screens a relay can be addressed to
  const ACTIVITY_NONE: int := -1
  const NOTIFICATIONS_ACTIVITY: int := 1
  const NOTIFICATIONS_HOME_SCREEN: int := 2

  // Commands accepted by the broadcast receiver
  const ACTION_REGISTER_ACTIVITY: string := "ACTION_REGISTER_ACTIVITY"
  const ACTION_CLEAR: string := "ACTION_CLEAR"
  const ACTION_CLEAR_MISSED_CALLS: string := "app.baldphone.neo.CLEAR_MISSED_CALLS_NOTIFICATION"

  // android.app.Notification flag bits and the missed-call category
  const FLAG_ONGOING_EVENT: bv32 := 0x0000_0002
  const FLAG_NO_CLEAR: bv32 := 0x0000_0020
  const FLAG_GROUP_SUMMARY: bv32 := 0x0000_0200
  const CATEGORY_MISSED_CALL: string := "missed_call"

  const UNKNOWN_NUMBER: string := "unknown_number"
  const UNKNOWN_STATE: string := "UNKNOWN_STATE_"
  const UNKNOWN_APP_NAME: string := "(unknown)"

  /** One active notification as the platform reports it (icons and PendingIntents left out). */
  datatype StatusBarNotification = StatusBarNotification(
    key: string,
    packageName: string,
    category: Option<string>,
    flags: bv32,
    title: Option<string>,
    text: Option<string>,
    when: int)

  /** The per-notification Bundle sent to the notifications screen. */
  datatype NotificationBundle = NotificationBundle(
    key: string,
    packageName: string,
    appName: string,
    title: Option<string>,
    text: Option<string>,
    timeStamp: int,
    clearable: bool,
    summery: bool)

  /** The two broadcasts the relay can send. */
  datatype Broadcast =
    | NotificationsActivityBroadcast(notifications: seq<NotificationBundle>)
    | HomeScreenBroadcast(amount: int, packages: seq<string>)

  /** The call events the tracker reports (onIncomingCall, onCallOngoing, onMissedCall). */
  datatype CallEvent =
    | IncomingCall(caller: string, dialer: Option<string>)
    | CallOngoing(caller: string, dialer: Option<string>)
    | MissedCall(caller: string, dialer: Option<string>)

  /** The arguments of one onCallStateChanged callback. */
  datatype PhoneStateChange = PhoneStateChange(state: int, incomingNumber: Option<string>)

  /** The parts of a broadcast Intent the receiver reads. */
  datatype Intent = Intent(action: Option<string>, activityExtra: Option<int>, keyExtra: Option<string>)

  /** The receiver's switch on the Intent's action. */
  datatype Command =
    | RegisterActivity(activity: int)
    | Clear(key: Option<string>)
    | ClearMissedCalls
    | Ignored

  // ---------------------------------------------------------------------------
  // Call-state tracking

  /** The caller as reported in call events: a missing or empty number becomes a placeholder. */
  function NumberForLog(incomingNumber: Option<string>): (r: string)
    ensures r != []
    ensures incomingNumber.Some? && incomingNumber.value != [] ==> r == incomingNumber.value
    ensures incomingNumber.None? || incomingNumber.value == [] ==> r == UNKNOWN_NUMBER
  {
    if incomingNumber.Some? && incomingNumber.value != [] then incomingNumber.value else UNKNOWN_NUMBER
  }

  /** The ringing flag and the events after some callbacks. */
  datatype TrackerState = TrackerState(ringing: bool, events: seq<CallEvent>)

  /** One onCallStateChanged callback applied to the ringing flag. */
  function CallStep(ringing: bool, change: PhoneStateChange, dialer: Option<string>): (r: TrackerState)
    ensures r.ringing <==> change.state == CALL_STATE_RINGING
    ensures |r.events| <= 1
    ensures MissedCallers(r.events) ==
              if ringing && change.state == CALL_STATE_IDLE then [NumberForLog(change.incomingNumber)] else []
    ensures change.state == CALL_STATE_RINGING ==> r.events == [IncomingCall(NumberForLog(change.incomingNumber), dialer)]
    ensures change.state == CALL_STATE_OFFHOOK ==> r.events == [CallOngoing(NumberForLog(change.incomingNumber), dialer)]
    ensures change.state == CALL_STATE_IDLE && ringing ==> r.events == [MissedCall(NumberForLog(change.incomingNumber), dialer)]
    ensures change.state == CALL_STATE_IDLE && !ringing ==> r.events == []
    ensures change.state !in {CALL_STATE_IDLE, CALL_STATE_RINGING, CALL_STATE_OFFHOOK} ==> r.events == []
  {
    var caller := NumberForLog(change.incomingNumber);
    if change.state == CALL_STATE_RINGING then
      TrackerState(true, [IncomingCall(caller, dialer)])
    else if change.state == CALL_STATE_OFFHOOK then
      TrackerState(false, [CallOngoing(caller, dialer)])
    else if change.state == CALL_STATE_IDLE then
      TrackerState(false, if ringing then [MissedCall(caller, dialer)] else [])
    else
      TrackerState(false, [])
  }

  /** A sequence of callbacks, applied in order from an initial ringing flag. */
  function Track(ringing: bool, changes: seq<PhoneStateChange>, dialer: Option<string>): TrackerState
    decreases |changes|
  {
    if changes == [] then TrackerState(ringing, [])
    else
      var before := Track(ringing, changes[..|changes| - 1], dialer);
      var step := CallStep(before.ringing, changes[|changes| - 1], dialer);
      TrackerState(step.ringing, before.events + step.events)
  }

  /** The callers of the missed-call events, in order. */
  function MissedCallers(events: seq<CallEvent>): seq<string>
    decreases |events|
  {
    if events == [] then []
    else
      var last := events[|events| - 1];
      MissedCallers(events[..|events| - 1]) + (if last.MissedCall? then [last.caller] else [])
  }

  /**
   * Reference definition of a missed call: a RINGING callback immediately
   * followed by an IDLE one; the caller is the one the IDLE callback carries.
   */
  function RingThenIdleCallers(changes: seq<PhoneStateChange>): seq<string>
    decreases |changes|
  {
    if |changes| < 2 then []
    else
      var n := |changes|;
      RingThenIdleCallers(changes[..n - 1]) +
        (if changes[n - 2].state == CALL_STATE_RINGING && changes[n - 1].state == CALL_STATE_IDLE
         then [NumberForLog(changes[n - 1].incomingNumber)] else [])
  }

  lemma {:induction false} MissedCallersAppend(a: seq<CallEvent>, b: seq<CallEvent>)
    ensures MissedCallers(a + b) == MissedCallers(a) + MissedCallers(b)
    decreases |b|
  {
    if b != [] {
      assert (a + b)[..|a + b| - 1] == a + b[..|b| - 1];
      MissedCallersAppend(a, b[..|b| - 1]);
    } else {
      assert a + b == a;
    }
  }

  /** After any non-empty sequence of callbacks the phone counts as ringing iff the last one was RINGING. */
  lemma {:induction false} TrackRingingFlag(ringing: bool, changes: seq<PhoneStateChange>, dialer: Option<string>)
    ensures Track(ringing, changes, dialer).ringing ==
              if changes == [] then ringing else changes[|changes| - 1].state == CALL_STATE_RINGING
  {
  }

  /**
   * Starting from the initial (not ringing) state, the tracker reports a missed
   * call exactly for each RINGING callback immediately followed by IDLE, in order.
   */
  lemma {:induction false} MissedCallIffRingingThenIdle(changes: seq<PhoneStateChange>, dialer: Option<string>)
    ensures MissedCallers(Track(false, changes, dialer).events) == RingThenIdleCallers(changes)
    decreases |changes|
  {
    if changes != [] {
      var n := |changes|;
      var prefix := changes[..n - 1];
      var before := Track(false, prefix, dialer);
      var step := CallStep(before.ringing, changes[n - 1], dialer);
      MissedCallIffRingingThenIdle(prefix, dialer);
      MissedCallersAppend(before.events, step.events);
      TrackRingingFlag(false, prefix, dialer);
      if n >= 2 {
        assert prefix[|prefix| - 1] == changes[n - 2];
      }
    }
  }

  /** Logging name of a call state. */
  function CallStateToString(state: int): (r: string)
    ensures state == CALL_STATE_IDLE ==> r == "IDLE"
    ensures state == CALL_STATE_RINGING ==> r == "RINGING"
    ensures state == CALL_STATE_OFFHOOK ==> r == "OFFHOOK"
    ensures state !in {CALL_STATE_IDLE, CALL_STATE_RINGING, CALL_STATE_OFFHOOK} ==>
              |r| > |UNKNOWN_STATE| && r[..|UNKNOWN_STATE|] == UNKNOWN_STATE
  {
    if state == CALL_STATE_IDLE then "IDLE"
    else if state == CALL_STATE_RINGING then "RINGING"
    else if state == CALL_STATE_OFFHOOK then "OFFHOOK"
    else UNKNOWN_STATE + Decimal.IntToString(state)
  }

  /** The number after the UNKNOWN_STATE_ prefix reads back as the state. */
  lemma UnknownStateNameReadsBack(state: int)
    requires state !in {CALL_STATE_IDLE, CALL_STATE_RINGING, CALL_STATE_OFFHOOK}
    ensures var digits := CallStateToString(state)[|UNKNOWN_STATE|..];
      |digits| >= 1 && (digits[0] == '-' ==> Decimal.AllDigits(digits[1..])) &&
      (digits[0] != '-' ==> Decimal.AllDigits(digits)) && Decimal.DecimalValue(digits) == state
  {
    assert CallStateToString(state)[|UNKNOWN_STATE|..] == Decimal.IntToString(state);
    Decimal.IntRoundTrip(state);
  }

  /** Different states never share a logging name. */
  lemma CallStateToStringInjective(a: int, b: int)
    requires CallStateToString(a) == CallStateToString(b)
    ensures a == b
  {
    var prefix := UNKNOWN_STATE;
    var known := {CALL_STATE_IDLE, CALL_STATE_RINGING, CALL_STATE_OFFHOOK};
    if a !in known && b !in known {
      var sa, sb := Decimal.IntToString(a), Decimal.IntToString(b);
      assert (prefix + sa)[|prefix|..] == sa;
      assert (prefix + sb)[|prefix|..] == sb;
      Decimal.IntToStringInjective(a, b);
    }
  }

  // ---------------------------------------------------------------------------
  // Projections of the active notifications

  /** The application label the PackageManager gives, or the fallback when the package is not found. */
  function AppLabel(packageName: string, labels: map<string, string>): string
  {
    if packageName in labels then labels[packageName] else UNKNOWN_APP_NAME
  }

  /** getAppNameFromPackage: the same lookup as the one the detailed relay does inline. */
  function GetAppNameFromPackage(packageName: Option<string>, labels: map<string, string>): (r: string)
    ensures packageName.None? ==> r == UNKNOWN_APP_NAME
    ensures packageName.Some? ==> r == AppLabel(packageName.value, labels)
    ensures packageName.Some? && packageName.value !in labels ==> r == UNKNOWN_APP_NAME
  {
    match packageName
    case None => UNKNOWN_APP_NAME
    case Some(p) => if p in labels then labels[p] else UNKNOWN_APP_NAME
  }

  /** The Bundle of one notification. */
  function BundleOf(n: StatusBarNotification, labels: map<string, string>): NotificationBundle
  {
    NotificationBundle(
      n.key, n.packageName, AppLabel(n.packageName, labels), n.title, n.text, n.when,
      n.flags & FLAG_NO_CLEAR == 0,
      n.flags & FLAG_GROUP_SUMMARY == FLAG_GROUP_SUMMARY)
  }

  /** The detailed projection: one Bundle per active notification, at the same index. */
  function DetailedProjection(active: seq<StatusBarNotification>, labels: map<string, string>): (r: seq<NotificationBundle>)
    ensures |r| == |active|
  {
    seq(|active|, i requires 0 <= i < |active| => BundleOf(active[i], labels))
  }

  /** The package names of the active notifications, in order, duplicates kept. */
  function PackagesOf(active: seq<StatusBarNotification>): (r: seq<string>)
    ensures |r| == |active|
  {
    seq(|active|, i requires 0 <= i < |active| => active[i].packageName)
  }

  /** The summary projection for the home screen. */
  function SummaryProjection(active: seq<StatusBarNotification>): Broadcast
  {
    HomeScreenBroadcast(|active|, PackagesOf(active))
  }

  /** What one relay pass sends, given the service's state and the active notifications. */
  function RelayFor(listening: bool, activity: int, active: Option<seq<StatusBarNotification>>,
                    labels: map<string, string>): (r: seq<Broadcast>)
    ensures |r| <= 1
    ensures r != [] <==>
              listening && active.Some? &&
              (activity == NOTIFICATIONS_ACTIVITY || activity == NOTIFICATIONS_HOME_SCREEN)
    ensures forall b :: b in r ==> (b.NotificationsActivityBroadcast? <==> activity == NOTIFICATIONS_ACTIVITY)
    ensures forall b :: b in r ==> (b.HomeScreenBroadcast? <==> activity == NOTIFICATIONS_HOME_SCREEN)
    ensures r != [] && activity == NOTIFICATIONS_ACTIVITY ==>
              r == [NotificationsActivityBroadcast(DetailedProjection(active.value, labels))]
    ensures r != [] && activity == NOTIFICATIONS_HOME_SCREEN ==> r == [SummaryProjection(active.value)]
  {
    if !listening || active.None? then []
    else if activity == NOTIFICATIONS_ACTIVITY then
      [NotificationsActivityBroadcast(DetailedProjection(active.value, labels))]
    else if activity == NOTIFICATIONS_HOME_SCREEN then
      [SummaryProjection(active.value)]
    else []
  }

  /**
   * Per notification, the detailed Bundle is marked clearable iff the NO_CLEAR bit
   * is unset and as a group summary iff the GROUP_SUMMARY bit is set; it carries the
   * notification's key and package and the label lookup's result.
   */
  lemma DetailedProjectionFields(active: seq<StatusBarNotification>, labels: map<string, string>, i: int)
    requires 0 <= i < |active|
    ensures var b := DetailedProjection(active, labels)[i];
      && b.key == active[i].key
      && b.packageName == active[i].packageName
      && (b.clearable <==> active[i].flags & FLAG_NO_CLEAR == 0)
      && (b.summery <==> active[i].flags & FLAG_GROUP_SUMMARY != 0)
      && (active[i].packageName !in labels ==> b.appName == UNKNOWN_APP_NAME)
  {
  }

  /** The two projections describe the same list: same length, same packages in the same order. */
  lemma ProjectionsAgree(active: seq<StatusBarNotification>, labels: map<string, string>)
    ensures var d := DetailedProjection(active, labels);
      var s := SummaryProjection(active);
      s.amount == |d| == |s.packages| &&
      forall i :: 0 <= i < |d| ==> s.packages[i] == d[i].packageName
  {
  }

  /** The loop that fills the Bundle array for the notifications screen. */
  method BuildNotificationBundles(statusBarNotifications: seq<StatusBarNotification>, labels: map<string, string>)
    returns (bundlesToSend: array<NotificationBundle>)
    ensures fresh(bundlesToSend)
    ensures bundlesToSend[..] == DetailedProjection(statusBarNotifications, labels)
  {
    bundlesToSend := new NotificationBundle[|statusBarNotifications|];
    for i := 0 to |statusBarNotifications|
      invariant forall k :: 0 <= k < i ==> bundlesToSend[k] == BundleOf(statusBarNotifications[k], labels)
    {
      var sbn := statusBarNotifications[i];
      var appName := if sbn.packageName in labels then labels[sbn.packageName] else UNKNOWN_APP_NAME;
      bundlesToSend[i] := NotificationBundle(
        sbn.key, sbn.packageName, appName, sbn.title, sbn.text, sbn.when,
        sbn.flags & FLAG_NO_CLEAR == 0,
        sbn.flags & FLAG_GROUP_SUMMARY == FLAG_GROUP_SUMMARY);
    }
  }

  /** The loop that collects the package names for the home screen. */
  method BuildPackageList(statusBarNotifications: seq<StatusBarNotification>) returns (packages: seq<string>)
    ensures packages == PackagesOf(statusBarNotifications)
  {
    packages := [];
    for i := 0 to |statusBarNotifications|
      invariant packages == PackagesOf(statusBarNotifications[..i])
    {
      packages := packages + [statusBarNotifications[i].packageName];
    }
    assert statusBarNotifications[..|statusBarNotifications|] == statusBarNotifications;
  }

  // ---------------------------------------------------------------------------
  // Missed-call cleanup

  /** A missed-call notification the cleanup may cancel: neither NO_CLEAR nor ONGOING_EVENT is set. */
  predicate IsCancellableMissedCall(n: StatusBarNotification) {
    && n.category == Some(CATEGORY_MISSED_CALL)
    && n.flags & FLAG_NO_CLEAR == 0
    && n.flags & FLAG_ONGOING_EVENT == 0
  }

  /** The keys the cleanup cancels, in the order of the active list. */
  function MissedCallKeys(active: seq<StatusBarNotification>): seq<string>
    decreases |active|
  {
    if active == [] then []
    else
      var last := active[|active| - 1];
      MissedCallKeys(active[..|active| - 1]) + (if IsCancellableMissedCall(last) then [last.key] else [])
  }

  /** The cleanup cancels a key iff some active notification with that key is a cancellable missed call. */
  lemma {:induction false} MissedCallKeysExact(active: seq<StatusBarNotification>, key: string)
    ensures key in MissedCallKeys(active) <==>
              exists i :: 0 <= i < |active| && active[i].key == key && IsCancellableMissedCall(active[i])
    decreases |active|
  {
    if active != [] {
      var prefix := active[..|active| - 1];
      MissedCallKeysExact(prefix, key);
      if key in MissedCallKeys(prefix) {
        var i :| 0 <= i < |prefix| && prefix[i].key == key && IsCancellableMissedCall(prefix[i]);
        assert active[i] == prefix[i];
      }
      if exists i :: 0 <= i < |active| && active[i].key == key && IsCancellableMissedCall(active[i]) {
        var i :| 0 <= i < |active| && active[i].key == key && IsCancellableMissedCall(active[i]);
        if i < |prefix| {
          assert prefix[i] == active[i];
        }
      }
    }
  }

  /** The cleanup cancels at most one key per active notification. */
  lemma {:induction false} MissedCallKeysBounded(active: seq<StatusBarNotification>)
    ensures |MissedCallKeys(active)| <= |active|
    decreases |active|
  {
    if active != [] {
      MissedCallKeysBounded(active[..|active| - 1]);
    }
  }

  /**
   * The detailed projection's `clearable` tests NO_CLEAR only, while the cleanup
   * also spares ONGOING_EVENT: every cancellable missed call is shown as clearable,
   * but an ongoing missed-call notification is shown as clearable and still not cancelled.
   */
  lemma ClearableIsWeakerThanCancellable(n: StatusBarNotification, labels: map<string, string>)
    ensures IsCancellableMissedCall(n) ==> BundleOf(n, labels).clearable
    ensures var ongoing := n.(category := Some(CATEGORY_MISSED_CALL), flags := FLAG_ONGOING_EVENT);
      BundleOf(ongoing, labels).clearable && !IsCancellableMissedCall(ongoing)
  {
  }

  // ---------------------------------------------------------------------------
  // The broadcast receiver's command decoding

  /** The receiver's dispatch: null Intents, null actions and unknown actions are ignored. */
  function ParseBroadcast(intent: Option<Intent>): (c: Command)
    ensures c.Ignored? <==>
              intent.None? || intent.value.action.None? ||
              intent.value.action.value !in {ACTION_REGISTER_ACTIVITY, ACTION_CLEAR, ACTION_CLEAR_MISSED_CALLS}
    ensures c.RegisterActivity? <==> intent.Some? && intent.value.action == Some(ACTION_REGISTER_ACTIVITY)
    ensures c.Clear? <==> intent.Some? && intent.value.action == Some(ACTION_CLEAR)
    ensures c.ClearMissedCalls? <==> intent.Some? && intent.value.action == Some(ACTION_CLEAR_MISSED_CALLS)
    ensures c.RegisterActivity? ==> c.activity == intent.value.activityExtra.GetOr(ACTIVITY_NONE)
    ensures c.Clear? ==> c.key == intent.value.keyExtra
  {
    if intent.None? || intent.value.action.None? then Ignored
    else
      var action := intent.value.action.value;
      if action == ACTION_REGISTER_ACTIVITY then RegisterActivity(intent.value.activityExtra.GetOr(ACTIVITY_NONE))
      else if action == ACTION_CLEAR then Clear(intent.value.keyExtra)
      else if action == ACTION_CLEAR_MISSED_CALLS then ClearMissedCalls
      else Ignored
  }

  // ---------------------------------------------------------------------------
  // The service

  class NotificationListenerService {
    /** The registered screen: ACTIVITY_NONE, NOTIFICATIONS_ACTIVITY or NOTIFICATIONS_HOME_SCREEN (any int the extra carries). */
    var activity: int
    var isServiceListening: bool
    /** The phone rang and has not gone off-hook or idle since. */
    var isDefaultDialerRinging: bool
    /** The call-state subscription (telephonyManager.listen with LISTEN_CALL_STATE) is in effect. */
    var callStateSubscribed: bool
    /** The default dialer package found when the service was created. */
    const defaultDialerPackage: Option<string>

    /** Call events reported, in order. */
    ghost var callEvents: seq<CallEvent>
    /** Broadcasts relayed to the registered screen, in order. */
    ghost var relayed: seq<Broadcast>
    /** Keys passed to cancelNotification, in order. */
    ghost var cancelled: seq<string>

    ghost predicate Valid()
      reads this
    {
      callStateSubscribed ==> isServiceListening
    }

    /** The service as onCreate leaves it. */
    constructor (defaultDialerPackage: Option<string>)
      ensures Valid()
      ensures this.defaultDialerPackage == defaultDialerPackage
      ensures activity == ACTIVITY_NONE
      ensures !isServiceListening && !isDefaultDialerRinging && !callStateSubscribed
      ensures callEvents == [] && relayed == [] && cancelled == []
    {
      this.defaultDialerPackage := defaultDialerPackage;
      activity := ACTIVITY_NONE;
      isServiceListening := false;
      isDefaultDialerRinging := false;
      callStateSubscribed := false;
      callEvents := [];
      relayed := [];
      cancelled := [];
    }

    /**
     * The phone-state listener's callback.  The platform calls it only while
     * the subscription is in effect; the model deliberately accepts it in any
     * state, since the callback itself does not consult the subscription.
     */
    method OnCallStateChanged(state: int, incomingNumber: Option<string>)
      modifies this`isDefaultDialerRinging, this`callEvents
      ensures var step := CallStep(old(isDefaultDialerRinging), PhoneStateChange(state, incomingNumber), defaultDialerPackage);
        isDefaultDialerRinging == step.ringing && callEvents == old(callEvents) + step.events
    {
      var numberForLog := if incomingNumber.Some? && incomingNumber.value != [] then incomingNumber.value else UNKNOWN_NUMBER;
      if state == CALL_STATE_RINGING {
        isDefaultDialerRinging := true;
        callEvents := callEvents + [IncomingCall(numberForLog, defaultDialerPackage)];
      } else if state == CALL_STATE_OFFHOOK {
        isDefaultDialerRinging := false;
        callEvents := callEvents + [CallOngoing(numberForLog, defaultDialerPackage)];
      } else if state == CALL_STATE_IDLE {
        if isDefaultDialerRinging {
          callEvents := callEvents + [MissedCall(numberForLog, defaultDialerPackage)];
        }
        isDefaultDialerRinging := false;
      } else {
        isDefaultDialerRinging := false;
      }
    }

    /** sendBroadcastToActivity: relay the active notifications to the registered screen, if listening. */
    method SendBroadcastToActivity(active: Option<seq<StatusBarNotification>>, labels: map<string, string>)
      modifies this`relayed
      ensures relayed == old(relayed) + RelayFor(isServiceListening, activity, active, labels)
    {
      if !isServiceListening {
        return;
      }
      if activity == NOTIFICATIONS_ACTIVITY {
        SendBroadcastToNotificationsActivity(active, labels);
      } else if activity == NOTIFICATIONS_HOME_SCREEN {
        SendBroadcastToHomeScreenActivity(active);
      }
    }

    /** The detailed relay; a failed query (None) sends nothing. */
    method SendBroadcastToNotificationsActivity(active: Option<seq<StatusBarNotification>>, labels: map<string, string>)
      modifies this`relayed
      ensures relayed == old(relayed) +
                if active.Some? then [NotificationsActivityBroadcast(DetailedProjection(active.value, labels))] else []
    {
      if active.None? {
        return;
      }
      var bundlesToSend := BuildNotificationBundles(active.value, labels);
      relayed := relayed + [NotificationsActivityBroadcast(bundlesToSend[..])];
    }

    /** The summary relay; a failed query (None) sends nothing. */
    method SendBroadcastToHomeScreenActivity(active: Option<seq<StatusBarNotification>>)
      modifies this`relayed
      ensures relayed == old(relayed) + if active.Some? then [SummaryProjection(active.value)] else []
    {
      if active.None? {
        return;
      }
      var packages := BuildPackageList(active.value);
      relayed := relayed + [HomeScreenBroadcast(|active.value|, packages)];
    }

    /** A notification was posted; a null one is ignored, otherwise the relay runs. */
    method OnNotificationPosted(sbn: Option<StatusBarNotification>,
                                active: Option<seq<StatusBarNotification>>, labels: map<string, string>)
      modifies this`relayed
      ensures relayed == old(relayed) + if sbn.Some? then RelayFor(isServiceListening, activity, active, labels) else []
    {
      if sbn.None? {
        return;
      }
      SendBroadcastToActivity(active, labels);
    }

    /** A notification was removed; a null one is ignored, otherwise the relay runs. */
    method OnNotificationRemoved(sbn: Option<StatusBarNotification>,
                                 active: Option<seq<StatusBarNotification>>, labels: map<string, string>)
      modifies this`relayed
      ensures relayed == old(relayed) + if sbn.Some? then RelayFor(isServiceListening, activity, active, labels) else []
    {
      if sbn.None? {
        return;
      }
      SendBroadcastToActivity(active, labels);
    }

    /**
     * The listener connected.  Only the first connection acts: it starts
     * listening, subscribes to call state when telephony is ready (a
     * TelephonyManager and listener exist and listen() does not throw
     * SecurityException), and relays once.
     */
    method OnListenerConnected(telephonyReady: bool,
                               active: Option<seq<StatusBarNotification>>, labels: map<string, string>)
      requires Valid()
      modifies this`isServiceListening, this`callStateSubscribed, this`relayed
      ensures Valid()
      ensures old(isServiceListening) ==> unchanged(this)
      ensures !old(isServiceListening) ==>
                && isServiceListening
                && callStateSubscribed == telephonyReady
                && relayed == old(relayed) + RelayFor(true, activity, active, labels)
    {
      if !isServiceListening {
        isServiceListening := true;
        if telephonyReady {
          callStateSubscribed := true;
        }
        SendBroadcastToActivity(active, labels);
      }
    }

    /** The listener disconnected: stop listening and unsubscribe; the registered screen is kept. */
    method OnListenerDisconnected()
      requires Valid()
      modifies this`isServiceListening, this`callStateSubscribed
      ensures Valid()
      ensures !isServiceListening && !callStateSubscribed
      ensures activity == old(activity)
      ensures !old(isServiceListening) ==> unchanged(this)
    {
      if isServiceListening {
        isServiceListening := false;
        callStateSubscribed := false;
      }
    }

    /** clearAllIdentifiedMissedCallNotifications: cancel the cancellable missed-call notifications. */
    method ClearAllIdentifiedMissedCallNotifications(active: Option<seq<StatusBarNotification>>)
      modifies this`cancelled
      ensures cancelled == old(cancelled) + if active.Some? then MissedCallKeys(active.value) else []
    {
      if active.None? {
        return;
      }
      var activeNotifications := active.value;
      for i := 0 to |activeNotifications|
        invariant cancelled == old(cancelled) + MissedCallKeys(activeNotifications[..i])
      {
        var sbn := activeNotifications[i];
        if sbn.category == Some(CATEGORY_MISSED_CALL) {
          if sbn.flags & FLAG_NO_CLEAR == 0 && sbn.flags & FLAG_ONGOING_EVENT == 0 {
            cancelled := cancelled + [sbn.key];
          }
        }
        assert activeNotifications[..i + 1][..i] == activeNotifications[..i];
      }
      assert activeNotifications[..|activeNotifications|] == activeNotifications;
    }

    /** The broadcast receiver: register a screen, cancel one key, or clear missed calls. */
    method OnReceive(intent: Option<Intent>, active: Option<seq<StatusBarNotification>>, labels: map<string, string>)
      modifies this`activity, this`relayed, this`cancelled
      ensures match ParseBroadcast(intent)
        case RegisterActivity(a) =>
          && activity == a
          && relayed == old(relayed) + RelayFor(isServiceListening, a, active, labels)
          && cancelled == old(cancelled)
        case Clear(key) =>
          && activity == old(activity) && relayed == old(relayed)
          && cancelled == old(cancelled) + if key.Some? then [key.value] else []
        case ClearMissedCalls =>
          && activity == old(activity) && relayed == old(relayed)
          && cancelled == old(cancelled) + if active.Some? then MissedCallKeys(active.value) else []
        case Ignored =>
          unchanged(this)
    {
      if intent.None? {
        return;
      }
      var action := intent.value.action;
      if action.None? {
        return;
      }
      if action.value == ACTION_REGISTER_ACTIVITY {
        activity := intent.value.activityExtra.GetOr(ACTIVITY_NONE);
        SendBroadcastToActivity(active, labels);
      } else if action.value == ACTION_CLEAR {
        var keyToCancel := intent.value.keyExtra;
        if keyToCancel.Some? {
          cancelled := cancelled + [keyToCancel.value];
        }
      } else if action.value == ACTION_CLEAR_MISSED_CALLS {
        ClearAllIdentifiedMissedCallNotifications(active);
      }
    }
  }

  /** A call that rings and then goes idle is reported as one missed call. */
  method MissedCallScenario(number: string)
  {
    var service := new NotificationListenerService(None);
    service.OnCallStateChanged(CALL_STATE_RINGING, Some(number));
    service.OnCallStateChanged(CALL_STATE_IDLE, Some(number));
    var caller := NumberForLog(Some(number));
    assert service.callEvents == [IncomingCall(caller, None), MissedCall(caller, None)];
    assert MissedCallers(service.callEvents) == [caller] by {
      MissedCallersAppend([IncomingCall(caller, None)], [MissedCall(caller, None)]);
    }
  }

  /** A call that is answered before it goes idle is not a missed call. */
  method AnsweredCallScenario(number: string)
  {
    var service := new NotificationListenerService(None);
    service.OnCallStateChanged(CALL_STATE_RINGING, Some(number));
    service.OnCallStateChanged(CALL_STATE_OFFHOOK, Some(number));
    service.OnCallStateChanged(CALL_STATE_IDLE, Some(number));
    var caller := NumberForLog(Some(number));
    assert service.callEvents == [IncomingCall(caller, None), CallOngoing(caller, None)];
  }

  /** A reconnection relays again, to the screen registered before the disconnection. */
  method ReconnectScenario(active: seq<StatusBarNotification>, labels: map<string, string>)
  {
    var service := new NotificationListenerService(None);
    service.OnListenerConnected(true, Some(active), labels);
    var register := Intent(Some(ACTION_REGISTER_ACTIVITY), Some(NOTIFICATIONS_HOME_SCREEN), None);
    service.OnReceive(Some(register), Some(active), labels);
    assert service.relayed == [SummaryProjection(active)];
    service.OnListenerDisconnected();
    service.OnListenerConnected(true, Some([]), labels);
    assert service.relayed == [SummaryProjection(active), HomeScreenBroadcast(0, [])];
  }
}
