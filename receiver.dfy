/** The geofence transition dispatcher (GeofenceBroadcastReceiver.kt): for
    every region named in an enter or exit event it switches DND on or off
    and tells the user how that went. The notification manager is the
    abstract one of module Dnd; toasts, notifications and the DND calls
    themselves are recorded in an append-only log. */
module Receiver {
  import opened Wrappers
  import opened Dnd

  /** Geofence.GEOFENCE_TRANSITION_* values. */
  const TransitionEnter: int := 1
  const TransitionExit: int := 2

  const AlertTitle := "Geofence Alert"

  /** What GeofencingEvent.fromIntent yields when it yields an event. */
  datatype GeofencingEvent = GeofencingEvent(
    hasError: bool,
    errorCode: int,
    geofenceTransition: int,
    triggeringIds: Option<seq<string>>)

  /** One observable effect of handling an event. */
  datatype Output =
    | DndCall(activate: bool, success: bool)   // enableDND (activate) or disableDND, and what it returned
    | Notification(title: string, text: string)
    | Toast(text: string)

  /** Decimal rendering of an integer, as Kotlin's string template prints it. */
  function NatToString(n: nat): (r: string)
    ensures |r| >= 1
    decreases n
  {
    var d := "0123456789"[n % 10];
    if n < 10 then [d] else NatToString(n / 10) + [d]
  }

  function IntToString(n: int): string
  {
    if n < 0 then "-" + NatToString(-n) else NatToString(n)
  }

  function ErrorText(code: int): string
  {
    "Geofence error: " + IntToString(code)
  }

  /** The message for one region after an enter or exit DND call. */
  function ResultMessage(transition: int, name: string, success: bool): string
  {
    if transition == TransitionEnter then
      if success then "Entered " + name + " - DND activated"
      else "Entered " + name + " - DND activation failed (check permissions)"
    else
      if success then "Exited " + name + " - DND deactivated"
      else "Exited " + name + " - DND deactivation failed (check permissions)"
  }

  /** What handling one triggering region emits. */
  function RegionOutputs(transition: int, name: string, success: bool): seq<Output>
  {
    if transition == TransitionEnter || transition == TransitionExit then
      var message := ResultMessage(transition, name, success);
      [DndCall(transition == TransitionEnter, success), Notification(AlertTitle, message), Toast(message)]
    else
      []
  }

  /** What handling all triggering regions emits, in order. Every call
      sees the same gates, so all of them succeed or all of them fail. */
  function RegionsOutputs(transition: int, ids: seq<string>, success: bool): seq<Output>
    decreases |ids|
  {
    if ids == [] then []
    else RegionsOutputs(transition, ids[..|ids| - 1], success) + RegionOutputs(transition, ids[|ids| - 1], success)
  }

  /** The DND state after handling the triggering regions. */
  function RegionsState(transition: int, ids: seq<string>, s: DndState): DndState
  {
    if ids == [] || !ChangeSucceeds(s) then s
    else if transition == TransitionEnter then s.(interruptionFilter := FilterNone)
    else if transition == TransitionExit then s.(interruptionFilter := FilterAll)
    else s
  }

  /** Everything onReceive emits for an event, given the DND state it starts from. */
  function Dispatch(event: Option<GeofencingEvent>, s: DndState): seq<Output>
  {
    match event
    case None => []
    case Some(e) =>
      if e.hasError then [Toast(ErrorText(e.errorCode))]
      else match e.triggeringIds
        case None => []
        case Some(ids) => RegionsOutputs(e.geofenceTransition, ids, ChangeSucceeds(s))
  }

  /** The DND state onReceive leaves behind. */
  function DispatchState(event: Option<GeofencingEvent>, s: DndState): DndState
  {
    match event
    case None => s
    case Some(e) =>
      if e.hasError then s
      else match e.triggeringIds
        case None => s
        case Some(ids) => RegionsState(e.geofenceTransition, ids, s)
  }

  /** The user-visible channel (toasts, notifications) plus a record of the DND calls made. */
  class EventLog {
    var entries: seq<Output>

    constructor ()
      ensures entries == []
    {
      entries := [];
    }

    method Append(os: seq<Output>)
      modifies this
      ensures entries == old(entries) + os
    {
      entries := entries + os;
    }
  }

  /** onReceive: null event, error event, or a transition with its triggering regions. */
  method OnReceive(nm: NotificationManager, log: EventLog, event: Option<GeofencingEvent>)
    modifies nm`interruptionFilter, log
    ensures log.entries == old(log.entries) + Dispatch(event, old(nm.State()))
    ensures nm.State() == DispatchState(event, old(nm.State()))
  {
    if event.None? {
      return;
    }
    var e := event.value;
    if e.hasError {
      log.Append([Toast(ErrorText(e.errorCode))]);
      return;
    }
    if e.triggeringIds.None? {
      return;
    }
    HandleRegions(nm, log, e.geofenceTransition, e.triggeringIds.value);
  }

  /** The forEach over the triggering regions. */
  method HandleRegions(nm: NotificationManager, log: EventLog, transition: int, ids: seq<string>)
    modifies nm`interruptionFilter, log
    ensures log.entries == old(log.entries) + RegionsOutputs(transition, ids, ChangeSucceeds(old(nm.State())))
    ensures nm.State() == RegionsState(transition, ids, old(nm.State()))
  {
    ghost var s0 := nm.State();
    var i := 0;
    while i < |ids|
      invariant 0 <= i <= |ids|
      invariant log.entries == old(log.entries) + RegionsOutputs(transition, ids[..i], ChangeSucceeds(s0))
      invariant nm.State() == RegionsState(transition, ids[..i], s0)
    {
      RegionsStep(transition, ids, i, s0);
      ghost var done := RegionsOutputs(transition, ids[..i], ChangeSucceeds(s0));
      var outputs := HandleRegion(nm, transition, ids[i]);
      assert outputs == RegionOutputs(transition, ids[i], ChangeSucceeds(s0));
      log.Append(outputs);
      AppendAssoc(old(log.entries), done, outputs);
      i := i + 1;
    }
    assert ids[..i] == ids;
  }

  /** The body of the forEach: one triggering region. */
  method HandleRegion(nm: NotificationManager, transition: int, name: string) returns (outputs: seq<Output>)
    modifies nm`interruptionFilter
    ensures outputs == RegionOutputs(transition, name, ChangeSucceeds(old(nm.State())))
    ensures nm.State() == RegionsState(transition, [name], old(nm.State()))
  {
    if transition == TransitionEnter {
      var success := EnableDnd(nm);
      var message := ResultMessage(TransitionEnter, name, success);
      outputs := [DndCall(true, success), Notification(AlertTitle, message), Toast(message)];
    } else if transition == TransitionExit {
      var success := DisableDnd(nm);
      var message := ResultMessage(TransitionExit, name, success);
      outputs := [DndCall(false, success), Notification(AlertTitle, message), Toast(message)];
    } else {
      outputs := [];
    }
  }

  lemma AppendAssoc(a: seq<Output>, b: seq<Output>, c: seq<Output>)
    ensures a + b + c == a + (b + c)
  {
  }

  /** One more region: its outputs are appended, and the gates stay as they were. */
  lemma RegionsStep(transition: int, ids: seq<string>, i: nat, s: DndState)
    requires i < |ids|
    ensures RegionsOutputs(transition, ids[..i + 1], ChangeSucceeds(s)) ==
      RegionsOutputs(transition, ids[..i], ChangeSucceeds(s)) + RegionOutputs(transition, ids[i], ChangeSucceeds(s))
    ensures ChangeSucceeds(RegionsState(transition, ids[..i], s)) == ChangeSucceeds(s)
    ensures RegionsState(transition, ids[..i + 1], s) ==
      RegionsState(transition, [ids[i]], RegionsState(transition, ids[..i], s))
  {
    assert ids[..i + 1][..i] == ids[..i];
  }

  // ---------------------------------------------------------------------
  // Properties of the dispatch

  /** Number of entries of `os` that satisfy `p`. */
  function Count(os: seq<Output>, p: Output -> bool): nat
    decreases |os|
  {
    if os == [] then 0 else Count(os[..|os| - 1], p) + (if p(os[|os| - 1]) then 1 else 0)
  }

  lemma {:induction false} CountAppend(a: seq<Output>, b: seq<Output>, p: Output -> bool)
    ensures Count(a + b, p) == Count(a, p) + Count(b, p)
    decreases |b|
  {
    if b == [] {
      assert a + b == a;
    } else {
      assert (a + b)[..|a + b| - 1] == a + b[..|b| - 1];
      CountAppend(a, b[..|b| - 1], p);
    }
  }

  predicate IsEnableCall(o: Output) { o.DndCall? && o.activate }
  predicate IsDisableCall(o: Output) { o.DndCall? && !o.activate }
  predicate IsNotification(o: Output) { o.Notification? }
  predicate IsToast(o: Output) { o.Toast? }

  /** What one region contributes to each count. */
  lemma CountTriple(os: seq<Output>, p: Output -> bool)
    requires |os| == 3
    ensures Count(os, p) == (if p(os[0]) then 1 else 0) + (if p(os[1]) then 1 else 0) + (if p(os[2]) then 1 else 0)
  {
    assert os[..2][..1] == os[..1] && os[..1][..0] == [];
    assert Count(os[..1], p) == if p(os[0]) then 1 else 0;
    assert Count(os[..2], p) == Count(os[..1], p) + if p(os[1]) then 1 else 0;
  }

  /** An enter event calls enableDND once per region and never disableDND,
      and posts one notification and one toast per region. */
  lemma {:induction false} EnterCallsEnableOncePerRegion(ids: seq<string>, success: bool)
    ensures var os := RegionsOutputs(TransitionEnter, ids, success);
      Count(os, IsEnableCall) == |ids| && Count(os, IsDisableCall) == 0 &&
      Count(os, IsNotification) == |ids| && Count(os, IsToast) == |ids|
    decreases |ids|
  {
    if ids != [] {
      var init := ids[..|ids| - 1];
      EnterCallsEnableOncePerRegion(init, success);
      var message := ResultMessage(TransitionEnter, ids[|ids| - 1], success);
      var front := RegionsOutputs(TransitionEnter, init, success);
      var last := [DndCall(true, success), Notification(AlertTitle, message), Toast(message)];
      CountAppend(front, last, IsEnableCall);
      CountAppend(front, last, IsDisableCall);
      CountAppend(front, last, IsNotification);
      CountAppend(front, last, IsToast);
      CountTriple(last, IsEnableCall);
      CountTriple(last, IsDisableCall);
      CountTriple(last, IsNotification);
      CountTriple(last, IsToast);
    }
  }

  /** An exit event calls disableDND once per region and never enableDND,
      and posts one notification and one toast per region. */
  lemma {:induction false} ExitCallsDisableOncePerRegion(ids: seq<string>, success: bool)
    ensures var os := RegionsOutputs(TransitionExit, ids, success);
      Count(os, IsDisableCall) == |ids| && Count(os, IsEnableCall) == 0 &&
      Count(os, IsNotification) == |ids| && Count(os, IsToast) == |ids|
    decreases |ids|
  {
    if ids != [] {
      var init := ids[..|ids| - 1];
      ExitCallsDisableOncePerRegion(init, success);
      var message := ResultMessage(TransitionExit, ids[|ids| - 1], success);
      var front := RegionsOutputs(TransitionExit, init, success);
      var last := [DndCall(false, success), Notification(AlertTitle, message), Toast(message)];
      CountAppend(front, last, IsEnableCall);
      CountAppend(front, last, IsDisableCall);
      CountAppend(front, last, IsNotification);
      CountAppend(front, last, IsToast);
      CountTriple(last, IsEnableCall);
      CountTriple(last, IsDisableCall);
      CountTriple(last, IsNotification);
      CountTriple(last, IsToast);
    }
  }

  /** For enter and exit, the outputs for the k-th region are, in order, the
      DND call, then a notification and a toast carrying the same message. */
  lemma {:induction false} RegionOutputsAt(transition: int, ids: seq<string>, success: bool, k: nat)
    requires transition == TransitionEnter || transition == TransitionExit
    requires k < |ids|
    ensures var os := RegionsOutputs(transition, ids, success);
      var message := ResultMessage(transition, ids[k], success);
      |os| == 3 * |ids| &&
      os[3 * k] == DndCall(transition == TransitionEnter, success) &&
      os[3 * k + 1] == Notification(AlertTitle, message) &&
      os[3 * k + 2] == Toast(message)
    decreases |ids|
  {
    var init := ids[..|ids| - 1];
    if k < |ids| - 1 {
      RegionOutputsAt(transition, init, success, k);
    } else if init != [] {
      RegionOutputsAt(transition, init, success, 0);
    }
  }

  /** Any other transition kind makes no DND call, emits nothing and leaves the state alone. */
  lemma {:induction false} OtherTransitionsIgnored(transition: int, ids: seq<string>, s: DndState)
    requires transition != TransitionEnter && transition != TransitionExit
    ensures RegionsOutputs(transition, ids, ChangeSucceeds(s)) == []
    ensures RegionsState(transition, ids, s) == s
    decreases |ids|
  {
    if ids != [] {
      OtherTransitionsIgnored(transition, ids[..|ids| - 1], s);
    }
  }

  /** A null event, or one without triggering regions, does nothing at all;
      an error event only toasts its error code. */
  lemma IgnoredAndErrorEvents(event: Option<GeofencingEvent>, s: DndState)
    ensures event.None? ==> Dispatch(event, s) == [] && DispatchState(event, s) == s
    ensures event.Some? && event.value.hasError ==>
      Dispatch(event, s) == [Toast(ErrorText(event.value.errorCode))] && DispatchState(event, s) == s
    ensures event.Some? && !event.value.hasError && event.value.triggeringIds.None? ==>
      Dispatch(event, s) == [] && DispatchState(event, s) == s
  {
  }

  /** After an enter event with at least one region whose calls succeed,
      the status reads "Total Silence"; after such an exit, "All
      Notifications". When the calls fail the state is left as it was, so
      the status is whatever it was before the event. */
  lemma {:induction false} DispatchStatus(e: GeofencingEvent, ids: seq<string>, s: DndState)
    requires !e.hasError && e.triggeringIds == Some(ids) && ids != []
    ensures e.geofenceTransition == TransitionEnter && ChangeSucceeds(s) ==>
      CurrentStatus(DispatchState(Some(e), s)) == StatusTotalSilence
    ensures e.geofenceTransition == TransitionExit && ChangeSucceeds(s) ==>
      CurrentStatus(DispatchState(Some(e), s)) == StatusAllNotifications
    ensures !ChangeSucceeds(s) ==> DispatchState(Some(e), s) == s
  {
  }
}
