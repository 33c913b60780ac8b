/**
 * The SOS button component: the countdown that arms an emergency alert, the
 * dispatch that notifies every emergency contact, the confirmation that
 * follows, and the two input filters (trigger keys and Bluetooth audio
 * outputs) that decide which device events reach it.
 *
 * The component's state is the record `Sos`. Each event handler is a function
 * from the state before to the state after (`AfterPress`, `AfterTick`, ...),
 * and the class `SosButton` holds the same state in fields and performs the
 * handlers step by step, each method proved to agree with its function.
 * What the component sends to the outside world (location requests,
 * blocking alerts, the log lines that stand for notifications and the
 * emergency call) is recorded in order in `outbox`.
 */
module EmergencyButton {
  import opened Options
  import opened Text

  // ---------------------------------------------------------------------------
  // Entities
  // ---------------------------------------------------------------------------

  /** A position from the location hook; each coordinate is kept as the text JavaScript prints for it. */
  datatype Position = Position(latitude: string, longitude: string)

  datatype Contact = Contact(name: string, phone: string)

  /** The signed-in user; an empty text field stands for a missing one. */
  datatype User = User(name: string, phone: string, emergencyContacts: Option<seq<Contact>>)

  /**
   * What a dispatch reads besides the component's own state: the user and
   * location values the dispatching closure sees, and the rendered time.
   */
  datatype DispatchContext = DispatchContext(user: Option<User>, location: Option<Position>, now: string)

  /** The fields of a keyboard event that the trigger-key filter looks at. */
  datatype KeyEvent = KeyEvent(code: string, key: string, keyCode: int)

  /** An entry of the media-device enumeration. */
  datatype MediaDevice = MediaDevice(kind: string, deviceLabel: string)

  /** The handle of a one-second countdown interval. */
  type Handle = nat

  /** An effect the component has on the outside world. */
  datatype Outbound =
    | LocationRequested
    | BlockingAlert(text: string)
    | ContactNotified(name: string, phone: string, message: string)
    | EmergencyCall(target: string)

  /**
   * The component's state: its four state variables, the headphone flag,
   * the countdown intervals that are still scheduled, the next fresh interval
   * handle, the confirmation-expiry timeouts still pending, and the outbox.
   */
  datatype Sos = Sos(
    isActivated: bool,
    countdown: int,
    showConfirmation: bool,
    lastLocation: Option<Position>,
    headphoneConnected: bool,
    intervals: set<Handle>,
    nextHandle: Handle,
    pendingExpiries: nat,
    outbox: seq<Outbound>)

  const CountdownStart := 5
  const NoContactsText := "No emergency contacts found! Please add contacts first."
  const UnknownLocationText := "Unable to determine location"
  const MapsPrefix := "https://maps.google.com/?q="
  const UnknownNumberText := "unknown number"
  const AlertHeading := "\U{1F6A8} EMERGENCY ALERT from "
  const LocationHeading := "\n\U{1F4CD} Location: "
  const TimeHeading := "\n\U{23F0} Time: "
  /** How JavaScript prints a missing (`undefined`) value inside a template. */
  const UndefinedText := "undefined"

  /** The state when the component mounts. */
  const Initial := Sos(false, 0, false, None, false, {}, 0, 0, [])

  /**
   * What every reachable state satisfies: the countdown stays between 0 and 5,
   * a running countdown is activated and has a scheduled interval, and every
   * scheduled handle was handed out before.
   */
  predicate Consistent(s: Sos)
  {
    && 0 <= s.countdown <= CountdownStart
    && (s.countdown > 0 ==> s.isActivated && s.intervals != {})
    && forall h :: h in s.intervals ==> h < s.nextHandle
  }

  // ---------------------------------------------------------------------------
  // Input filters
  // ---------------------------------------------------------------------------

  /** The keys that the key-down handler treats as an SOS trigger. */
  predicate IsTriggerKey(e: KeyEvent)
  {
    || e.code == "MediaPlayPause"
    || e.code == "MediaTrackNext"
    || e.code == "MediaTrackPrevious"
    || e.key == " "
    || e.code == "KeyM"
    || e.keyCode == 179
  }

  /** An audio output whose label mentions Bluetooth or Boult, in any letter case. */
  predicate IsBluetoothOutput(d: MediaDevice)
  {
    d.kind == "audiooutput" && (Contains(Lower(d.deviceLabel), "bluetooth") || Contains(Lower(d.deviceLabel), "boult"))
  }

  /** `devices.some(IsBluetoothOutput)` */
  function HasBluetoothOutput(devices: seq<MediaDevice>): (r: bool)
    ensures r <==> exists i :: 0 <= i < |devices| && IsBluetoothOutput(devices[i])
  {
    if devices == [] then
      false
    else if IsBluetoothOutput(devices[0]) then
      true
    else
      var r := HasBluetoothOutput(devices[1..]);
      assert forall i :: 1 <= i < |devices| ==> devices[i] == devices[1..][i - 1];
      assert r ==> exists i :: 0 <= i < |devices| && IsBluetoothOutput(devices[i]) by {
        if r {
          var j :| 0 <= j < |devices[1..]| && IsBluetoothOutput(devices[1..][j]);
          assert IsBluetoothOutput(devices[j + 1]);
        }
      }
      r
  }

  /** The two keys the long-press listener watches are trigger keys as well. */
  lemma LongPressKeysAreTriggerKeys(e: KeyEvent)
    requires e.code == "MediaPlayPause" || e.key == " "
    ensures IsTriggerKey(e)
  {
  }

  /** Lower-casing the label of a device does not change whether it counts as a Bluetooth output. */
  lemma BluetoothFilterIgnoresCase(d: MediaDevice)
    ensures IsBluetoothOutput(d) == IsBluetoothOutput(d.(deviceLabel := Lower(d.deviceLabel)))
  {
    LowerIdempotent(d.deviceLabel);
  }

  /** Any audio output whose label contains "Bluetooth", in whatever letter case, is detected. */
  lemma DetectsBluetoothInLabel(before: string, word: string, after: string)
    requires Lower(word) == "bluetooth"
    ensures IsBluetoothOutput(MediaDevice("audiooutput", before + word + after))
  {
    var text := before + word + after;
    assert Lower(text) == Lower(before) + Lower(word) + Lower(after);
    ContainsInfix(Lower(before), "bluetooth", Lower(after));
  }

  // ---------------------------------------------------------------------------
  // The alert message and the dispatch's effects
  // ---------------------------------------------------------------------------

  function MapsLink(p: Position): string
  {
    MapsPrefix + p.latitude + "," + p.longitude
  }

  /** The location line's value: a maps link, or the text that says there is no location. */
  function LocationText(location: Option<Position>): string
  {
    match location
    case Some(p) => MapsLink(p)
    case None => UnknownLocationText
  }

  function SenderName(name: string): string
  {
    if name == "" then "User" else name
  }

  /** The three-line message sent to every contact. */
  function AlertMessage(name: string, location: Option<Position>, now: string): string
  {
    AlertHeading + SenderName(name) + LocationHeading + LocationText(location) + TimeHeading + now
  }

  /** The message names the sender and carries the location line's value. */
  lemma AlertMessageContents(name: string, location: Option<Position>, now: string)
    ensures Contains(AlertMessage(name, location, now), SenderName(name))
    ensures Contains(AlertMessage(name, location, now), LocationText(location))
    ensures location.Some? ==> Contains(AlertMessage(name, location, now), MapsLink(location.value))
    ensures location.None? ==> Contains(AlertMessage(name, location, now), UnknownLocationText)
  {
    var m := AlertMessage(name, location, now);
    var sender := SenderName(name);
    var place := LocationText(location);
    assert m == AlertHeading + sender + (LocationHeading + place + TimeHeading + now);
    ContainsInfix(AlertHeading, sender, LocationHeading + place + TimeHeading + now);
    assert m == (AlertHeading + sender + LocationHeading) + place + (TimeHeading + now);
    ContainsInfix(AlertHeading + sender + LocationHeading, place, TimeHeading + now);
  }

  /** The target of the emergency-call log line. */
  function CallTarget(phone: string): string
  {
    if phone == "" then UnknownNumberText else phone
  }

  /** One notification per contact, in the contacts' order, all with the same message. */
  function Notifications(contacts: seq<Contact>, message: string): seq<Outbound>
  {
    if contacts == [] then []
    else
      var last := contacts[|contacts| - 1];
      Notifications(contacts[..|contacts| - 1], message) + [ContactNotified(last.name, last.phone, message)]
  }

  lemma {:induction false} NotificationsAreOnePerContact(contacts: seq<Contact>, message: string)
    ensures |Notifications(contacts, message)| == |contacts|
    ensures forall i :: 0 <= i < |contacts| ==>
      Notifications(contacts, message)[i] == ContactNotified(contacts[i].name, contacts[i].phone, message)
  {
    if contacts != [] {
      var init := contacts[..|contacts| - 1];
      NotificationsAreOnePerContact(init, message);
      assert forall i :: 0 <= i < |init| ==> init[i] == contacts[i];
    }
  }

  /** The user exists and has at least one emergency contact. */
  predicate HasContacts(user: Option<User>)
  {
    user.Some? && user.value.emergencyContacts.Some? && |user.value.emergencyContacts.value| > 0
  }

  /**
   * The location a dispatch reports, and remembers, as the component reads it:
   * the current location, else the remembered one. The remembered location is
   * stored with `lat`/`lng` fields, while the dispatch reads `latitude` and
   * `longitude`, so a fallback to it yields two undefined coordinates.
   */
  function DispatchLocation(lastLocation: Option<Position>, ctx: DispatchContext): Option<Position>
  {
    if ctx.location.Some? then ctx.location
    else if lastLocation.Some? then Some(Position(UndefinedText, UndefinedText))
    else None
  }

  /** Everything a dispatch sends, in order. */
  function DispatchEffects(lastLocation: Option<Position>, ctx: DispatchContext): seq<Outbound>
  {
    if !HasContacts(ctx.user) then
      [BlockingAlert(NoContactsText)]
    else
      var user := ctx.user.value;
      var message := AlertMessage(user.name, DispatchLocation(lastLocation, ctx), ctx.now);
      Notifications(user.emergencyContacts.value, message) + [EmergencyCall(CallTarget(user.phone))]
  }

  // ---------------------------------------------------------------------------
  // Events
  // ---------------------------------------------------------------------------

  /** A press of the SOS button (or any trigger that reaches the press handler). */
  function AfterPress(s: Sos): (r: Sos)
    ensures Consistent(s) ==> Consistent(r)
  {
    if s.countdown > 0 then s
    else
      s.(isActivated := true,
         countdown := CountdownStart,
         outbox := s.outbox + [LocationRequested],
         intervals := s.intervals + {s.nextHandle},
         nextHandle := s.nextHandle + 1)
  }

  /** A key-down event: a trigger key arms the alert when no countdown is running. */
  function AfterKeyDown(s: Sos, e: KeyEvent): (r: Sos)
    ensures Consistent(s) ==> Consistent(r)
  {
    if IsTriggerKey(e) && s.countdown == 0 then AfterPress(s) else s
  }

  /** A media-session "play" or "pause" action, or the "playpressed" document event. */
  function AfterMediaAction(s: Sos): (r: Sos)
    ensures Consistent(s) ==> Consistent(r)
  {
    if s.countdown == 0 then AfterPress(s) else s
  }

  /** The dispatch of the alert. */
  function AfterDispatch(s: Sos, ctx: DispatchContext): (r: Sos)
    ensures Consistent(s) ==> Consistent(r)
  {
    if !HasContacts(ctx.user) then
      s.(outbox := s.outbox + DispatchEffects(s.lastLocation, ctx))
    else
      s.(lastLocation := DispatchLocation(s.lastLocation, ctx),
         outbox := s.outbox + DispatchEffects(s.lastLocation, ctx),
         showConfirmation := true,
         pendingExpiries := s.pendingExpiries + 1)
  }

  /**
   * One firing of the countdown interval `h`. The countdown updater sees the
   * current countdown: above 1 it counts down; otherwise it clears its own
   * interval, dispatches and sets the countdown to 0.
   */
  function AfterTick(s: Sos, h: Handle, ctx: DispatchContext): (r: Sos)
    requires h in s.intervals
    ensures Consistent(s) ==> Consistent(r)
  {
    if s.countdown <= 1 then
      AfterDispatch(s.(intervals := s.intervals - {h}), ctx).(countdown := 0)
    else
      s.(countdown := s.countdown - 1)
  }

  /**
   * The cancel button, which is shown only while the countdown runs: it stops
   * the countdown display but leaves the intervals scheduled.
   */
  function AfterCancel(s: Sos): (r: Sos)
    requires s.countdown > 0
    ensures Consistent(s) ==> Consistent(r)
  {
    s.(countdown := 0, isActivated := false)
  }

  /** The confirmation's dismiss button. */
  function AfterDismiss(s: Sos): (r: Sos)
    ensures Consistent(s) ==> Consistent(r)
  {
    s.(showConfirmation := false)
  }

  /** A pending five-second confirmation timeout fires. */
  function AfterExpiry(s: Sos): (r: Sos)
    requires s.pendingExpiries > 0
    ensures Consistent(s) ==> Consistent(r)
  {
    s.(showConfirmation := false, pendingExpiries := s.pendingExpiries - 1)
  }

  /** The audio-device check: `None` is an enumeration that failed, which is only logged. */
  function AfterDeviceCheck(s: Sos, devices: Option<seq<MediaDevice>>): (r: Sos)
    ensures Consistent(s) ==> Consistent(r)
  {
    match devices
    case None => s
    case Some(ds) => s.(headphoneConnected := HasBluetoothOutput(ds))
  }

  /** `n` firings of the interval `h`, stopping early once it is no longer scheduled. */
  function AfterTicks(s: Sos, h: Handle, n: nat, ctx: DispatchContext): Sos
    decreases n
  {
    if n == 0 || h !in s.intervals then s else AfterTicks(AfterTick(s, h, ctx), h, n - 1, ctx)
  }

  // ---------------------------------------------------------------------------
  // Properties of the events
  // ---------------------------------------------------------------------------

  lemma InitialIsConsistent()
    ensures Consistent(Initial)
    ensures Initial.countdown == 0 && !Initial.isActivated && !Initial.showConfirmation
    ensures Initial.lastLocation == None && Initial.intervals == {} && Initial.outbox == []
  {
  }

  /** No trigger source changes anything while a countdown is running. */
  lemma TriggerWhileCountingChangesNothing(s: Sos, e: KeyEvent)
    requires s.countdown > 0
    ensures AfterPress(s) == s && AfterKeyDown(s, e) == s && AfterMediaAction(s) == s
  {
  }

  /**
   * A press with no countdown running activates the alert, starts the
   * countdown at 5, requests the location once and schedules exactly one new
   * interval; nothing else changes.
   */
  lemma PressArms(s: Sos)
    requires Consistent(s) && s.countdown == 0
    ensures var r := AfterPress(s);
      && r.isActivated && r.countdown == CountdownStart
      && r.outbox == s.outbox + [LocationRequested]
      && s.nextHandle !in s.intervals
      && r.intervals == s.intervals + {s.nextHandle}
      && |r.intervals| == |s.intervals| + 1
      && r.showConfirmation == s.showConfirmation
      && r.lastLocation == s.lastLocation
      && r.pendingExpiries == s.pendingExpiries
      && r.headphoneConnected == s.headphoneConnected
  {
    assert s.nextHandle !in s.intervals;
  }

  /** Every trigger source has the effect of a press: the sources differ only in which events they accept. */
  lemma TriggerSourcesAgree(s: Sos, e: KeyEvent)
    requires Consistent(s)
    ensures AfterMediaAction(s) == AfterPress(s)
    ensures AfterKeyDown(s, e) == if IsTriggerKey(e) then AfterPress(s) else s
  {
  }

  /** Before the countdown reaches 1 each firing of a scheduled interval only counts down. */
  lemma {:induction false} CountdownRunsDown(s: Sos, h: Handle, n: nat, ctx: DispatchContext)
    requires h in s.intervals && n < s.countdown
    ensures AfterTicks(s, h, n, ctx) == s.(countdown := s.countdown - n)
    decreases n
  {
    if n > 0 {
      var t := AfterTick(s, h, ctx);
      assert t == s.(countdown := s.countdown - 1);
      CountdownRunsDown(t, h, n - 1, ctx);
    }
  }

  /**
   * Once armed, the alert dispatches on the fifth firing of its interval:
   * the first four only count down from 5 to 1 and send nothing; the fifth
   * clears the interval, sets the countdown to 0 and sends the dispatch. The
   * alert stays activated after the dispatch, and nothing clears that flag
   * until a later press and cancel, since cancel is offered only while a
   * countdown runs.
   */
  lemma FifthTickDispatches(s: Sos, ctx: DispatchContext)
    requires Consistent(s) && s.countdown == 0
    ensures var a := AfterPress(s); var h := s.nextHandle;
      && (forall n :: 0 <= n < CountdownStart ==>
            AfterTicks(a, h, n, ctx) == a.(countdown := CountdownStart - n))
      && var r := AfterTicks(a, h, CountdownStart, ctx);
         && r.countdown == 0
         && r.isActivated
         && h !in r.intervals
         && r.outbox == a.outbox + DispatchEffects(s.lastLocation, ctx)
  {
    var a := AfterPress(s);
    var h := s.nextHandle;
    forall n | 0 <= n < CountdownStart
      ensures AfterTicks(a, h, n, ctx) == a.(countdown := CountdownStart - n)
    {
      CountdownRunsDown(a, h, n, ctx);
    }
    var four := a.(countdown := 1);
    CountdownRunsDown(a, h, 4, ctx);
    assert AfterTicks(a, h, 5, ctx) == AfterTicks(AfterTicks(a, h, 4, ctx), h, 1, ctx) by {
      TicksCompose(a, h, 4, 1, ctx);
    }
    assert AfterTicks(four, h, 1, ctx) == AfterTick(four, h, ctx);
  }

  /** `n + m` firings are `n` firings followed by `m`. */
  lemma {:induction false} TicksCompose(s: Sos, h: Handle, n: nat, m: nat, ctx: DispatchContext)
    ensures AfterTicks(s, h, n + m, ctx) == AfterTicks(AfterTicks(s, h, n, ctx), h, m, ctx)
    decreases n
  {
    if n > 0 && h in s.intervals {
      TicksCompose(AfterTick(s, h, ctx), h, n - 1, m, ctx);
    }
  }

  /**
   * A dispatch without emergency contacts raises the blocking alert and
   * nothing else: no notification, no call, no confirmation, and the last
   * location is kept.
   */
  lemma DispatchWithoutContacts(s: Sos, ctx: DispatchContext)
    requires !HasContacts(ctx.user)
    ensures var r := AfterDispatch(s, ctx);
      && r.outbox == s.outbox + [BlockingAlert(NoContactsText)]
      && r.showConfirmation == s.showConfirmation
      && r.lastLocation == s.lastLocation
      && r.pendingExpiries == s.pendingExpiries
  {
  }

  /**
   * A dispatch with contacts notifies every contact once, in stored order,
   * with one message that carries the reported location (or the text that
   * says there is none), then logs one emergency call, remembers the reported
   * location and shows the confirmation with its expiry pending.
   */
  lemma DispatchNotifiesEveryContact(s: Sos, ctx: DispatchContext)
    requires HasContacts(ctx.user)
    ensures var r := AfterDispatch(s, ctx);
      var user := ctx.user.value;
      var contacts := user.emergencyContacts.value;
      var location := DispatchLocation(s.lastLocation, ctx);
      var message := AlertMessage(user.name, location, ctx.now);
      var sent := r.outbox[|s.outbox|..];
      && r.outbox[..|s.outbox|] == s.outbox
      && |sent| == |contacts| + 1
      && (forall i :: 0 <= i < |contacts| ==>
            sent[i] == ContactNotified(contacts[i].name, contacts[i].phone, message))
      && sent[|contacts|] == EmergencyCall(CallTarget(user.phone))
      && r.lastLocation == location
      && (ctx.location.Some? ==> location == ctx.location)
      && (ctx.location.None? ==> (location.Some? <==> s.lastLocation.Some?))
      && (location.Some? ==> Contains(message, MapsLink(location.value)))
      && (location.None? ==> Contains(message, UnknownLocationText))
      && r.showConfirmation
      && r.pendingExpiries == s.pendingExpiries + 1
  {
    var user := ctx.user.value;
    var location := DispatchLocation(s.lastLocation, ctx);
    var message := AlertMessage(user.name, location, ctx.now);
    NotificationsAreOnePerContact(user.emergencyContacts.value, message);
    AlertMessageContents(user.name, location, ctx.now);
    var r := AfterDispatch(s, ctx);
    assert r.outbox[|s.outbox|..] == DispatchEffects(s.lastLocation, ctx);
  }

  /** Dismissing hides the confirmation; a second dismiss changes nothing. */
  lemma DismissIsIdempotent(s: Sos)
    ensures !AfterDismiss(s).showConfirmation
    ensures AfterDismiss(AfterDismiss(s)) == AfterDismiss(s)
  {
  }

  /** Dismiss and expiry both hide the confirmation, and change nothing else but the pending count. */
  lemma ExpiryHidesConfirmation(s: Sos)
    requires s.pendingExpiries > 0
    ensures !AfterExpiry(s).showConfirmation
    ensures AfterExpiry(s) == AfterDismiss(s).(pendingExpiries := s.pendingExpiries - 1)
  {
  }

  // ---------------------------------------------------------------------------
  // Cancel as written, and a cancel that also clears the countdown interval
  // ---------------------------------------------------------------------------

  /**
   * Cancelling a running countdown leaves its interval scheduled, and that
   * interval's next firing sees countdown 0, takes the "at most 1" branch and
   * dispatches the alert that was cancelled.
   */
  lemma CancelledCountdownStillDispatches(s: Sos, h: Handle, ctx: DispatchContext)
    requires Consistent(s) && s.countdown > 0 && h in s.intervals
    ensures var c := AfterCancel(s);
      && c.countdown == 0 && !c.isActivated
      && h in c.intervals
      && AfterTick(c, h, ctx).outbox == s.outbox + DispatchEffects(s.lastLocation, ctx)
  {
  }

  /**
   * Press, let one second pass, cancel, press again. The first interval is
   * still scheduled beside the second, and the two fire in turn, one second
   * apart: old, new, old, new. Each firing lowers the shared countdown, so the
   * rearmed countdown runs at double speed from 5 to 1. The old interval's
   * next firing then dispatches, and the new one's next firing dispatches
   * again, which leaves no interval scheduled.
   */
  lemma PressAfterCancelDispatchesTwice(s: Sos, ctx: DispatchContext)
    requires Consistent(s) && s.countdown == 0 && s.intervals == {}
    ensures
      var first := s.nextHandle;
      var second := s.nextHandle + 1;
      var rearmed := AfterPress(AfterCancel(AfterTick(AfterPress(s), first, ctx)));
      && rearmed.intervals == {first, second}
      && rearmed.countdown == CountdownStart
      && var t1 := AfterTick(rearmed, first, ctx);
         var t2 := AfterTick(t1, second, ctx);
         var t3 := AfterTick(t2, first, ctx);
         var t4 := AfterTick(t3, second, ctx);
         && t4.countdown == 1
         && t4.intervals == {first, second}
         && var t5 := AfterTick(t4, first, ctx);
            && second in t5.intervals
            && var t6 := AfterTick(t5, second, ctx);
               && t6.outbox == s.outbox + [LocationRequested, LocationRequested]
                               + DispatchEffects(s.lastLocation, ctx) + DispatchEffects(s.lastLocation, ctx)
               && t6.intervals == {}
  {
    var first := s.nextHandle;
    var second := s.nextHandle + 1;
    var rearmed := AfterPress(AfterCancel(AfterTick(AfterPress(s), first, ctx)));
    assert rearmed.intervals == {first, second};
    var t5 := AfterTick(AfterTick(AfterTick(AfterTick(AfterTick(rearmed, first, ctx), second, ctx), first, ctx), second, ctx), first, ctx);
    assert DispatchEffects(t5.lastLocation, ctx) == DispatchEffects(s.lastLocation, ctx);
  }

  /** The cancel the countdown needs: it also clears the scheduled interval. */
  function AfterCancelClearingInterval(s: Sos): (r: Sos)
    requires s.countdown > 0
    ensures Consistent(s) ==> Consistent(r)
  {
    s.(countdown := 0, isActivated := false, intervals := {})
  }

  /** At most one countdown interval is scheduled, and one is exactly while the countdown runs. */
  predicate SingleTimer(s: Sos)
  {
    |s.intervals| <= 1 && (s.countdown > 0 <==> s.intervals != {})
  }

  /** With the clearing cancel, every event keeps a single timer. */
  lemma ClearingCancelKeepsSingleTimer(s: Sos, h: Handle, e: KeyEvent, ctx: DispatchContext,
                                       devices: Option<seq<MediaDevice>>)
    requires Consistent(s) && SingleTimer(s)
    ensures SingleTimer(AfterPress(s)) && SingleTimer(AfterKeyDown(s, e)) && SingleTimer(AfterMediaAction(s))
    ensures h in s.intervals ==> SingleTimer(AfterTick(s, h, ctx))
    ensures s.countdown > 0 ==> SingleTimer(AfterCancelClearingInterval(s))
    ensures SingleTimer(AfterDismiss(s))
    ensures s.pendingExpiries > 0 ==> SingleTimer(AfterExpiry(s))
    ensures SingleTimer(AfterDeviceCheck(s, devices))
  {
    if s.countdown == 0 {
      assert s.intervals == {};
      assert AfterPress(s).intervals == {s.nextHandle};
    }
    if h in s.intervals {
      var rest := s.intervals - {h};
      assert s.intervals == rest + {h};
      assert rest == {};
    }
  }

  /** The cancel as written breaks the single-timer invariant whenever it cancels a running countdown. */
  lemma CancelBreaksSingleTimer(s: Sos)
    requires Consistent(s) && s.countdown > 0
    ensures !SingleTimer(AfterCancel(s))
  {
  }

  /** With the clearing cancel, the same press-cancel-press sequence dispatches once and leaves no timer. */
  lemma PressAfterClearingCancelDispatchesOnce(s: Sos, ctx: DispatchContext)
    requires Consistent(s) && s.countdown == 0 && s.intervals == {}
    ensures
      var first := s.nextHandle;
      var second := s.nextHandle + 1;
      var rearmed := AfterPress(AfterCancelClearingInterval(AfterTick(AfterPress(s), first, ctx)));
      && rearmed.intervals == {second}
      && var done := AfterTicks(rearmed, second, CountdownStart, ctx);
         && done.outbox == s.outbox + [LocationRequested, LocationRequested] + DispatchEffects(s.lastLocation, ctx)
         && done.intervals == {}
  {
    var second := s.nextHandle + 1;
    var rearmed := AfterPress(AfterCancelClearingInterval(AfterTick(AfterPress(s), s.nextHandle, ctx)));
    CountdownRunsDown(rearmed, second, 4, ctx);
    TicksCompose(rearmed, second, 4, 1, ctx);
    assert AfterTicks(rearmed, second, CountdownStart, ctx) == AfterTick(rearmed.(countdown := 1), second, ctx);
  }

  // ---------------------------------------------------------------------------
  // The location fallback as written, and the fallback the message intends
  // ---------------------------------------------------------------------------

  /**
   * Without a current location, a dispatch that falls back to the remembered
   * location sends a maps link with two undefined coordinates, whatever was
   * remembered, and remembers those undefined coordinates in turn.
   */
  lemma FallbackLosesCoordinates(s: Sos, ctx: DispatchContext)
    requires HasContacts(ctx.user) && ctx.location.None? && s.lastLocation.Some?
    ensures var r := AfterDispatch(s, ctx);
      var sent := AlertMessage(ctx.user.value.name, DispatchLocation(s.lastLocation, ctx), ctx.now);
      && r.lastLocation == Some(Position(UndefinedText, UndefinedText))
      && Contains(sent, MapsPrefix + "undefined,undefined")
      && r.outbox[|s.outbox|] == ContactNotified(ctx.user.value.emergencyContacts.value[0].name,
                                                 ctx.user.value.emergencyContacts.value[0].phone, sent)
      && (s.lastLocation.value != Position(UndefinedText, UndefinedText) ==> r.lastLocation != s.lastLocation)
  {
    var name := ctx.user.value.name;
    var undefinedAt := Position(UndefinedText, UndefinedText);
    var sent := AlertMessage(name, Some(undefinedAt), ctx.now);
    AlertMessageContents(name, Some(undefinedAt), ctx.now);
    assert MapsLink(undefinedAt) == MapsPrefix + "undefined,undefined";
    DispatchNotifiesEveryContact(s, ctx);
  }

  /** The location the message means to report: the current one, else the one remembered. */
  function IntendedDispatchLocation(lastLocation: Option<Position>, ctx: DispatchContext): (r: Option<Position>)
    ensures r.Some? <==> ctx.location.Some? || lastLocation.Some?
    ensures r.Some? ==> r == ctx.location || r == lastLocation
  {
    ctx.location.OrElse(lastLocation)
  }

  /**
   * With the intended fallback, a dispatch without a current location links
   * the remembered location itself; the component as written agrees with it
   * exactly when there is a current location, nothing remembered, or a
   * remembered location that is already undefined.
   */
  lemma IntendedFallbackLinksLastLocation(lastLocation: Option<Position>, ctx: DispatchContext, name: string)
    ensures ctx.location.None? && lastLocation.Some? ==>
      Contains(AlertMessage(name, IntendedDispatchLocation(lastLocation, ctx), ctx.now), MapsLink(lastLocation.value))
    ensures DispatchLocation(lastLocation, ctx) == IntendedDispatchLocation(lastLocation, ctx) <==>
      ctx.location.Some? || lastLocation.None? || lastLocation.value == Position(UndefinedText, UndefinedText)
  {
    AlertMessageContents(name, IntendedDispatchLocation(lastLocation, ctx), ctx.now);
  }

  // ---------------------------------------------------------------------------
  // The component
  // ---------------------------------------------------------------------------

  class SosButton {
    var isActivated: bool
    var countdown: int
    var showConfirmation: bool
    var lastLocation: Option<Position>
    var headphoneConnected: bool
    var intervals: set<Handle>
    var nextHandle: Handle
    var pendingExpiries: nat
    var outbox: seq<Outbound>

    function State(): Sos
      reads this
    {
      Sos(isActivated, countdown, showConfirmation, lastLocation, headphoneConnected,
          intervals, nextHandle, pendingExpiries, outbox)
    }

    ghost predicate Valid()
      reads this
    {
      Consistent(State())
    }

    constructor ()
      ensures Valid() && State() == Initial
    {
      isActivated, countdown, showConfirmation, lastLocation := false, 0, false, None;
      headphoneConnected := false;
      intervals, nextHandle, pendingExpiries, outbox := {}, 0, 0, [];
    }

    method HandleSOSPress()
      requires Valid()
      modifies this
      ensures Valid() && State() == AfterPress(old(State()))
    {
      if countdown > 0 {
        return;
      }
      isActivated := true;
      countdown := CountdownStart;
      outbox := outbox + [LocationRequested];
      intervals := intervals + {nextHandle};
      nextHandle := nextHandle + 1;
    }

    /** Returns whether the key's default action is prevented. */
    method HandleKeyDown(e: KeyEvent) returns (prevented: bool)
      requires Valid()
      modifies this
      ensures prevented == IsTriggerKey(e)
      ensures Valid() && State() == AfterKeyDown(old(State()), e)
    {
      prevented := false;
      if IsTriggerKey(e) {
        prevented := true;
        if countdown == 0 {
          HandleSOSPress();
        }
      }
    }

    method HandleMediaAction()
      requires Valid()
      modifies this
      ensures Valid() && State() == AfterMediaAction(old(State()))
    {
      if countdown == 0 {
        HandleSOSPress();
      }
    }

    /** The countdown updater run by the interval `h`. */
    method Tick(h: Handle, ctx: DispatchContext)
      requires Valid() && h in intervals
      modifies this
      ensures Valid() && State() == AfterTick(old(State()), h, ctx)
    {
      var prev := countdown;
      if prev <= 1 {
        intervals := intervals - {h};
        TriggerEmergencyAlert(ctx);
        countdown := 0;
      } else {
        countdown := prev - 1;
      }
    }

    method TriggerEmergencyAlert(ctx: DispatchContext)
      modifies this
      ensures State() == AfterDispatch(old(State()), ctx)
    {
      if !HasContacts(ctx.user) {
        outbox := outbox + [BlockingAlert(NoContactsText)];
        return;
      }
      var user := ctx.user.value;
      var contacts := user.emergencyContacts.value;
      var newLocation := DispatchLocation(lastLocation, ctx);
      var message := AlertMessage(user.name, newLocation, ctx.now);
      ghost var before := outbox;
      lastLocation := newLocation;
      for i := 0 to |contacts|
        invariant outbox == before + Notifications(contacts[..i], message)
        invariant lastLocation == newLocation
        invariant unchanged(this`isActivated, this`countdown, this`showConfirmation, this`headphoneConnected)
        invariant unchanged(this`intervals, this`nextHandle, this`pendingExpiries)
      {
        outbox := outbox + [ContactNotified(contacts[i].name, contacts[i].phone, message)];
        assert contacts[..i + 1][..i] == contacts[..i];
      }
      assert contacts[..|contacts|] == contacts;
      outbox := outbox + [EmergencyCall(CallTarget(user.phone))];
      showConfirmation := true;
      pendingExpiries := pendingExpiries + 1;
    }

    /** The cancel button's handler; the button is rendered only while the countdown runs. */
    method CancelAlert()
      requires Valid() && countdown > 0
      modifies this
      ensures Valid() && State() == AfterCancel(old(State()))
    {
      countdown := 0;
      isActivated := false;
    }

    method Dismiss()
      requires Valid()
      modifies this
      ensures Valid() && State() == AfterDismiss(old(State()))
    {
      showConfirmation := false;
    }

    method ExpireConfirmation()
      requires Valid() && pendingExpiries > 0
      modifies this
      ensures Valid() && State() == AfterExpiry(old(State()))
    {
      showConfirmation := false;
      pendingExpiries := pendingExpiries - 1;
    }

    method CheckAudioDevices(devices: Option<seq<MediaDevice>>)
      requires Valid()
      modifies this
      ensures Valid() && State() == AfterDeviceCheck(old(State()), devices)
    {
      if devices.Some? {
        headphoneConnected := HasBluetoothOutput(devices.value);
      }
    }
  }
}
