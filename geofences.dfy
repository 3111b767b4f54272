/** The geofence record table of the main screen (MainActivity.kt): the list
    of GeofenceData records, the callbacks that change it (switch, delete,
    add dialog), the platform subscription guard `addGeofence`, the
    re-registration done at start-up, and the INSIDE / OUTSIDE / DISABLED
    status badge. The persisted copy of the list is a ghost field; calls to
    the platform's geofencing client and the toasts shown synchronously are
    recorded in an append-only log. */
module Geofences {
  import opened Wrappers

  /** GeofenceData (ui/theme/GeofenceData.kt): the name is the lookup key. */
  datatype GeofenceData = GeofenceData(
    name: string,
    latitude: real,
    longitude: real,
    radius: real,
    enabled: bool)

  /** One call made to the platform, or one message shown to the user. */
  datatype Effect =
    | Subscribe(requestId: string, latitude: real, longitude: real, radius: real)  // addGeofences with one circular region
    | Unsubscribe(requestId: string)                                              // removeGeofences(listOf(requestId))
    | Toast(text: string)

  const PermissionDeniedText := "Location permission not granted"
  const FillAllFieldsText := "Please fill all fields"

  /** Fallback values of the add dialog for numbers that do not parse. */
  const DefaultCoordinate: real := 0.0
  const DefaultRadius: real := 50.0

  function RemovedText(name: string): string
  {
    "Geofence '" + name + "' removed"
  }

  // ---------------------------------------------------------------------
  // Lookup by name

  /** indexOfFirst { it.name == name }: the first index holding `name`, or -1. */
  function IndexOfFirst(gs: seq<GeofenceData>, name: string): (r: int)
    ensures -1 <= r < |gs|
    ensures r == -1 <==> forall j :: 0 <= j < |gs| ==> gs[j].name != name
    ensures r >= 0 ==> gs[r].name == name && forall j :: 0 <= j < r ==> gs[j].name != name
    decreases |gs|
  {
    if gs == [] then -1
    else if gs[0].name == name then 0
    else
      var k := IndexOfFirst(gs[1..], name);
      if k == -1 then -1 else k + 1
  }

  /** The records carrying `name`, in list order. */
  function Named(gs: seq<GeofenceData>, name: string): seq<GeofenceData>
    decreases |gs|
  {
    if gs == [] then []
    else (if gs[0].name == name then [gs[0]] else []) + Named(gs[1..], name)
  }

  /** The names of a list of records, in list order. */
  function Names(gs: seq<GeofenceData>): (r: seq<string>)
    ensures |r| == |gs| && forall j :: 0 <= j < |gs| ==> r[j] == gs[j].name
    decreases |gs|
  {
    if gs == [] then [] else [gs[0].name] + Names(gs[1..])
  }

  /** No two records share a name: the assumption the lookup by name rests on. */
  predicate UniqueNames(gs: seq<GeofenceData>)
  {
    forall i, j :: 0 <= i < j < |gs| ==> gs[i].name != gs[j].name
  }

  // ---------------------------------------------------------------------
  // The list changes, as functions of the old list

  /** Switch callback: the first record named like the row is replaced by the
      row's record with the new flag; no match, no change. */
  function Toggled(gs: seq<GeofenceData>, row: GeofenceData, on: bool): seq<GeofenceData>
  {
    var i := IndexOfFirst(gs, row.name);
    if i == -1 then gs else gs[i := row.(enabled := on)]
  }

  /** Delete callback: the first record named like the row is removed. */
  function RemovedFirst(gs: seq<GeofenceData>, name: string): seq<GeofenceData>
  {
    var i := IndexOfFirst(gs, name);
    if i == -1 then gs else gs[..i] + gs[i + 1..]
  }

  // ---------------------------------------------------------------------
  // Subscription

  /** addGeofence: a disabled record is skipped; without location permission
      the user is told so; otherwise one region is subscribed under the
      record's name. */
  function Registration(data: GeofenceData, locationGranted: bool): (r: seq<Effect>)
  {
    if !data.enabled then []
    else if !locationGranted then [Toast(PermissionDeniedText)]
    else [Subscribe(data.name, data.latitude, data.longitude, data.radius)]
  }

  /** The calls and messages that follow the switch of the row showing `row`. */
  function ToggleEffects(gs: seq<GeofenceData>, row: GeofenceData, on: bool, locationGranted: bool): seq<Effect>
  {
    if IndexOfFirst(gs, row.name) == -1 then []
    else if on then Registration(row.(enabled := true), locationGranted)
    else [Unsubscribe(row.name)]
  }

  /** The calls and messages that follow the delete button of the row showing `row`. */
  function DeleteEffects(gs: seq<GeofenceData>, name: string): seq<Effect>
  {
    if IndexOfFirst(gs, name) == -1 then [] else [Unsubscribe(name), Toast(RemovedText(name))]
  }

  /** The re-registration loop at start-up: addGeofence on every enabled record, in list order. */
  function StartupEffects(gs: seq<GeofenceData>, locationGranted: bool): seq<Effect>
    decreases |gs|
  {
    if gs == [] then []
    else
      var last := gs[|gs| - 1];
      StartupEffects(gs[..|gs| - 1], locationGranted) + (if last.enabled then Registration(last, locationGranted) else [])
  }

  /** The request ids of the subscribe calls in a log, in order. */
  function SubscribedIds(log: seq<Effect>): seq<string>
    decreases |log|
  {
    if log == [] then []
    else SubscribedIds(log[..|log| - 1]) + (if log[|log| - 1].Subscribe? then [log[|log| - 1].requestId] else [])
  }

  /** The request ids of the unsubscribe calls in a log, in order. */
  function UnsubscribedIds(log: seq<Effect>): seq<string>
    decreases |log|
  {
    if log == [] then []
    else UnsubscribedIds(log[..|log| - 1]) + (if log[|log| - 1].Unsubscribe? then [log[|log| - 1].requestId] else [])
  }

  /** The enabled records, in list order. */
  function EnabledRecords(gs: seq<GeofenceData>): seq<GeofenceData>
    decreases |gs|
  {
    if gs == [] then []
    else EnabledRecords(gs[..|gs| - 1]) + (if gs[|gs| - 1].enabled then [gs[|gs| - 1]] else [])
  }

  // ---------------------------------------------------------------------
  // The add dialog

  /** Kotlin's Char.isWhitespace: Java's isWhitespace or isSpaceChar. */
  predicate IsWhitespace(c: char)
  {
    ('\t' <= c <= '\r') || ('\U{001C}' <= c <= ' ') || c == '\U{00A0}' || c == '\U{1680}'
    || ('\U{2000}' <= c <= '\U{200A}') || c == '\U{2028}' || c == '\U{2029}'
    || c == '\U{202F}' || c == '\U{205F}' || c == '\U{3000}'
  }

  /** Kotlin's isBlank: empty, or whitespace only. */
  predicate IsBlank(s: string)
  {
    forall c :: c in s ==> IsWhitespace(c)
  }

  /** The record the add dialog builds; parsing is done by the platform and
      arrives here as an optional number. */
  function DialogRecord(name: string, lat: Option<real>, lng: Option<real>, radius: Option<real>): (r: GeofenceData)
    ensures r.name == name && r.enabled
    ensures r.latitude == (if lat.Some? then lat.value else 0.0)
    ensures r.longitude == (if lng.Some? then lng.value else 0.0)
    ensures r.radius == (if radius.Some? then radius.value else 50.0)
  {
    GeofenceData(name, lat.GetOr(DefaultCoordinate), lng.GetOr(DefaultCoordinate), radius.GetOr(DefaultRadius), true)
  }

  // ---------------------------------------------------------------------
  // The status badge

  const BadgeInside := "INSIDE"
  const BadgeOutside := "OUTSIDE"
  const BadgeDisabled := "DISABLED"

  /** The badge shown beside a record, given the distance from the shown
      location to the record's centre (None when there is no location). */
  function Badge(g: GeofenceData, distance: Option<real>): (r: string)
    ensures r == BadgeDisabled <==> !g.enabled
    ensures r == BadgeInside <==> g.enabled && distance.Some? && distance.value <= g.radius
    ensures r == BadgeOutside <==> g.enabled && (distance.None? || distance.value > g.radius)
  {
    var isInside := distance.Some? && distance.value <= g.radius;
    if !g.enabled then BadgeDisabled else if isInside then BadgeInside else BadgeOutside
  }

  // ---------------------------------------------------------------------
  // The screen state

  class GeofenceScreen {
    /** The list shown on screen (mutableStateListOf). */
    var geofences: seq<GeofenceData>
    /** What the key-value store holds. */
    ghost var persisted: seq<GeofenceData>
    /** Calls to the geofencing client and toasts, oldest first. */
    var log: seq<Effect>
    /** Whether ACCESS_FINE_LOCATION is granted; the screen only reads it. */
    var locationGranted: bool

    /** Every change is followed by a full rewrite of the stored list. */
    ghost predicate Valid()
      reads this
    {
      persisted == geofences
    }

    /** The screen starts from the stored list (loadGeofences). */
    constructor (stored: seq<GeofenceData>, granted: bool)
      ensures Valid()
      ensures geofences == stored && log == [] && locationGranted == granted
    {
      geofences := stored;
      persisted := stored;
      log := [];
      locationGranted := granted;
    }

    /** addGeofence. */
    method AddGeofence(data: GeofenceData)
      modifies this`log
      ensures log == old(log) + Registration(data, locationGranted)
    {
      if !data.enabled {
        return;
      }
      if !locationGranted {
        log := log + [Toast(PermissionDeniedText)];
        return;
      }
      log := log + [Subscribe(data.name, data.latitude, data.longitude, data.radius)];
    }

    /** Start-up: every enabled stored record is registered again. */
    method ReRegisterAll()
      modifies this`log
      ensures log == old(log) + StartupEffects(geofences, locationGranted)
      ensures NoDisabledActive(geofences, old(log)) ==> NoDisabledActive(geofences, log)
    {
      var i := 0;
      while i < |geofences|
        invariant 0 <= i <= |geofences|
        invariant log == old(log) + StartupEffects(geofences[..i], locationGranted)
      {
        var g := geofences[i];
        if g.enabled {
          AddGeofence(g);
        }
        assert geofences[..i + 1][..i] == geofences[..i];
        i := i + 1;
      }
      assert geofences[..i] == geofences;
      if NoDisabledActive(geofences, old(log)) {
        StartupKeepsNoDisabledActive(geofences, old(log), geofences, locationGranted);
      }
    }

    /** The enable switch of the row showing `row`. */
    method Toggle(row: GeofenceData, isEnabled: bool)
      requires Valid()
      modifies this`geofences, this`persisted, this`log
      ensures Valid()
      ensures geofences == Toggled(old(geofences), row, isEnabled)
      ensures log == old(log) + ToggleEffects(old(geofences), row, isEnabled, locationGranted)
      ensures NoDisabledActive(old(geofences), old(log)) ==> NoDisabledActive(geofences, log)
    {
      var index := IndexOfFirst(geofences, row.name);
      if index != -1 {
        geofences := geofences[index := row.(enabled := isEnabled)];
        persisted := geofences;
        if isEnabled {
          AddGeofence(row.(enabled := true));
        } else {
          log := log + [Unsubscribe(row.name)];
        }
      }
      if NoDisabledActive(old(geofences), old(log)) {
        ToggleKeepsNoDisabledActive(old(geofences), old(log), row, isEnabled, locationGranted);
      }
    }

    /** The delete button of the row showing `row`. */
    method Delete(row: GeofenceData)
      requires Valid()
      modifies this`geofences, this`persisted, this`log
      ensures Valid()
      ensures geofences == RemovedFirst(old(geofences), row.name)
      ensures log == old(log) + DeleteEffects(old(geofences), row.name)
      ensures NoDisabledActive(old(geofences), old(log)) ==> NoDisabledActive(geofences, log)
    {
      var index := IndexOfFirst(geofences, row.name);
      if index != -1 {
        log := log + [Unsubscribe(row.name)];
        geofences := geofences[..index] + geofences[index + 1..];
        persisted := geofences;
        log := log + [Toast(RemovedText(row.name))];
      }
      if NoDisabledActive(old(geofences), old(log)) {
        DeleteKeepsNoDisabledActive(old(geofences), old(log), row.name);
      }
    }

    /** The confirm button of the add dialog. */
    method ConfirmAdd(name: string, lat: string, lng: string,
                      parsedLat: Option<real>, parsedLng: Option<real>, parsedRadius: Option<real>)
      requires Valid()
      modifies this`geofences, this`persisted, this`log
      ensures Valid()
      ensures var accepted := !IsBlank(name) && !IsBlank(lat) && !IsBlank(lng);
        var record := DialogRecord(name, parsedLat, parsedLng, parsedRadius);
        if accepted then
          geofences == old(geofences) + [record] &&
          log == old(log) + Registration(record, locationGranted)
        else
          geofences == old(geofences) && log == old(log) + [Toast(FillAllFieldsText)]
      ensures NoDisabledActive(old(geofences), old(log)) ==> NoDisabledActive(geofences, log)
    {
      if !IsBlank(name) && !IsBlank(lat) && !IsBlank(lng) {
        var record := DialogRecord(name, parsedLat, parsedLng, parsedRadius);
        geofences := geofences + [record];
        persisted := geofences;
        AddGeofence(record);
      } else {
        log := log + [Toast(FillAllFieldsText)];
      }
      if NoDisabledActive(old(geofences), old(log)) {
        ConfirmAddKeepsNoDisabledActive(old(geofences), old(log),
          DialogRecord(name, parsedLat, parsedLng, parsedRadius), locationGranted);
      }
    }
  }

  // ---------------------------------------------------------------------
  // Properties of the log

  lemma {:induction false} SubscribedIdsAppend(a: seq<Effect>, b: seq<Effect>)
    ensures SubscribedIds(a + b) == SubscribedIds(a) + SubscribedIds(b)
    ensures UnsubscribedIds(a + b) == UnsubscribedIds(a) + UnsubscribedIds(b)
    decreases |b|
  {
    if b == [] {
      assert a + b == a;
    } else {
      assert (a + b)[..|a + b| - 1] == a + b[..|b| - 1];
      SubscribedIdsAppend(a, b[..|b| - 1]);
    }
  }

  /** addGeofence never unsubscribes; it subscribes once, under the record's
      name, exactly when the record is enabled and location access is granted. */
  lemma RegistrationCalls(data: GeofenceData, locationGranted: bool)
    ensures UnsubscribedIds(Registration(data, locationGranted)) == []
    ensures SubscribedIds(Registration(data, locationGranted)) ==
      if data.enabled && locationGranted then [data.name] else []
    ensures !data.enabled ==> Registration(data, locationGranted) == []
  {
  }

  /** Start-up subscribes exactly the enabled records, in list order, when
      location access is granted, and nothing otherwise; it never unsubscribes. */
  lemma {:induction false} StartupSubscribesEnabled(gs: seq<GeofenceData>, locationGranted: bool)
    ensures SubscribedIds(StartupEffects(gs, locationGranted)) ==
      if locationGranted then Names(EnabledRecords(gs)) else []
    ensures UnsubscribedIds(StartupEffects(gs, locationGranted)) == []
    decreases |gs|
  {
    if gs != [] {
      var init, last := gs[..|gs| - 1], gs[|gs| - 1];
      StartupSubscribesEnabled(init, locationGranted);
      var prev := StartupEffects(init, locationGranted);
      var tail := if last.enabled then Registration(last, locationGranted) else [];
      assert StartupEffects(gs, locationGranted) == prev + tail;
      SubscribedIdsAppend(prev, tail);
      RegistrationCalls(last, locationGranted);
      assert SubscribedIds(tail) == if last.enabled && locationGranted then [last.name] else [];
      var enabledTail := if last.enabled then [last] else [];
      assert EnabledRecords(gs) == EnabledRecords(init) + enabledTail;
      NamesAppend(EnabledRecords(init), enabledTail);
      assert Names(enabledTail) == if last.enabled then [last.name] else [];
    }
  }

  lemma NamesAppend(a: seq<GeofenceData>, b: seq<GeofenceData>)
    ensures Names(a + b) == Names(a) + Names(b)
  {
    assert forall j :: 0 <= j < |a + b| ==> Names(a + b)[j] == (Names(a) + Names(b))[j];
  }

  /** The switch of a row whose name is in the list subscribes that name
      once (when switched on and location access is granted) or
      unsubscribes it once (when switched off); otherwise it calls nothing. */
  lemma ToggleCalls(gs: seq<GeofenceData>, row: GeofenceData, on: bool, locationGranted: bool)
    ensures var found := IndexOfFirst(gs, row.name) != -1;
      var calls := ToggleEffects(gs, row, on, locationGranted);
      SubscribedIds(calls) == (if found && on && locationGranted then [row.name] else []) &&
      UnsubscribedIds(calls) == (if found && !on then [row.name] else [])
  {
  }

  /** Delete unsubscribes the row's name exactly once when a record carries
      it, and calls nothing otherwise. */
  lemma DeleteCalls(gs: seq<GeofenceData>, name: string)
    ensures SubscribedIds(DeleteEffects(gs, name)) == []
    ensures UnsubscribedIds(DeleteEffects(gs, name)) ==
      if IndexOfFirst(gs, name) != -1 then [name] else []
  {
  }

  // ---------------------------------------------------------------------
  // The active subscription set

  /** How one logged effect changes the set of subscribed request ids:
      addGeofences adds (or replaces) the id, removeGeofences drops it. */
  function Replay(active: set<string>, e: Effect): set<string>
  {
    match e
    case Subscribe(id, _, _, _) => active + {id}
    case Unsubscribe(id) => active - {id}
    case Toast(_) => active
  }

  /** The request ids subscribed with the platform after the calls in `log`,
      when every request takes effect and nothing was registered before. */
  function ActiveIds(log: seq<Effect>): set<string>
    decreases |log|
  {
    if log == [] then {} else Replay(ActiveIds(log[..|log| - 1]), log[|log| - 1])
  }

  /** Some enabled record in the list carries the id. */
  predicate HasEnabled(gs: seq<GeofenceData>, id: string)
  {
    exists g :: g in gs && g.name == id && g.enabled
  }

  /** No disabled record is subscribed: every active id names an enabled record. */
  predicate NoDisabledActive(gs: seq<GeofenceData>, log: seq<Effect>)
  {
    forall id :: id in ActiveIds(log) ==> HasEnabled(gs, id)
  }

  lemma ActiveIdsStep(log: seq<Effect>, e: Effect)
    ensures ActiveIds(log + [e]) == Replay(ActiveIds(log), e)
  {
    assert (log + [e])[..|log|] == log;
  }

  /** An id is active only if the log subscribed it at some point. */
  lemma {:induction false} ActiveWasSubscribed(log: seq<Effect>)
    ensures forall id :: id in ActiveIds(log) ==> id in SubscribedIds(log)
    decreases |log|
  {
    if log != [] {
      var init, last := log[..|log| - 1], log[|log| - 1];
      ActiveWasSubscribed(init);
      assert log == init + [last];
      SubscribedIdsAppend(init, [last]);
    }
  }

  /** addGeofence on a record of the list keeps disabled records unsubscribed. */
  lemma RegistrationKeepsNoDisabledActive(gs: seq<GeofenceData>, log: seq<Effect>, g: GeofenceData, locationGranted: bool)
    requires g in gs && NoDisabledActive(gs, log)
    ensures NoDisabledActive(gs, log + Registration(g, locationGranted))
  {
    if g.enabled {
      ActiveIdsStep(log, Registration(g, locationGranted)[0]);
      assert HasEnabled(gs, g.name);
    } else {
      assert log + Registration(g, locationGranted) == log;
    }
  }

  /** Writing position i keeps an enabled witness of any other name. */
  lemma HasEnabledWritten(gs: seq<GeofenceData>, i: nat, w: GeofenceData, id: string)
    requires i < |gs| && gs[i].name != id && HasEnabled(gs, id)
    ensures HasEnabled(gs[i := w], id)
  {
    var g :| g in gs && g.name == id && g.enabled;
    var j :| 0 <= j < |gs| && gs[j] == g;
    assert gs[i := w][j] == g;
  }

  /** Removing position i keeps an enabled witness of any other name. */
  lemma HasEnabledRemoved(gs: seq<GeofenceData>, i: nat, id: string)
    requires i < |gs| && gs[i].name != id && HasEnabled(gs, id)
    ensures HasEnabled(gs[..i] + gs[i + 1..], id)
  {
    var g :| g in gs && g.name == id && g.enabled;
    var j :| 0 <= j < |gs| && gs[j] == g;
    var rest := gs[..i] + gs[i + 1..];
    if j < i {
      assert rest[j] == g;
    } else {
      assert rest[j - 1] == g;
    }
  }

  /** The switch keeps disabled records unsubscribed: switching off
      unsubscribes the name; switching on subscribes only the record it enables. */
  lemma ToggleKeepsNoDisabledActive(gs: seq<GeofenceData>, log: seq<Effect>, row: GeofenceData, on: bool, locationGranted: bool)
    requires NoDisabledActive(gs, log)
    ensures NoDisabledActive(Toggled(gs, row, on), log + ToggleEffects(gs, row, on, locationGranted))
  {
    var i := IndexOfFirst(gs, row.name);
    if i != -1 {
      var written := row.(enabled := on);
      var after := gs[i := written];
      var effects := ToggleEffects(gs, row, on, locationGranted);
      forall id | id in ActiveIds(log + effects)
        ensures HasEnabled(after, id)
      {
        if id == row.name {
          assert on by {
            if !on {
              ActiveIdsStep(log, Unsubscribe(row.name));
            }
          }
          assert after[i] == written;
        } else {
          if on {
            if locationGranted {
              ActiveIdsStep(log, Subscribe(row.name, row.latitude, row.longitude, row.radius));
            } else {
              ActiveIdsStep(log, Toast(PermissionDeniedText));
            }
          } else {
            ActiveIdsStep(log, Unsubscribe(row.name));
          }
          HasEnabledWritten(gs, i, written, id);
        }
      }
    } else {
      assert log + ToggleEffects(gs, row, on, locationGranted) == log;
    }
  }

  /** Delete keeps disabled records unsubscribed: the name is unsubscribed
      and every other enabled record stays in the list. */
  lemma DeleteKeepsNoDisabledActive(gs: seq<GeofenceData>, log: seq<Effect>, name: string)
    requires NoDisabledActive(gs, log)
    ensures NoDisabledActive(RemovedFirst(gs, name), log + DeleteEffects(gs, name))
  {
    var i := IndexOfFirst(gs, name);
    if i != -1 {
      var effects := DeleteEffects(gs, name);
      ActiveIdsStep(log, Unsubscribe(name));
      assert log + effects == (log + [Unsubscribe(name)]) + [Toast(RemovedText(name))];
      ActiveIdsStep(log + [Unsubscribe(name)], Toast(RemovedText(name)));
      assert ActiveIds(log + effects) == ActiveIds(log) - {name};
      forall id | id in ActiveIds(log + effects)
        ensures HasEnabled(RemovedFirst(gs, name), id)
      {
        HasEnabledRemoved(gs, i, id);
      }
    } else {
      assert log + DeleteEffects(gs, name) == log;
    }
  }

  /** The add dialog keeps disabled records unsubscribed, whether it accepts
      the record or only toasts. */
  lemma ConfirmAddKeepsNoDisabledActive(gs: seq<GeofenceData>, log: seq<Effect>, record: GeofenceData, locationGranted: bool)
    requires NoDisabledActive(gs, log)
    ensures NoDisabledActive(gs + [record], log + Registration(record, locationGranted))
    ensures NoDisabledActive(gs, log + [Toast(FillAllFieldsText)])
  {
    ActiveIdsStep(log, Toast(FillAllFieldsText));
    forall id | id in ActiveIds(log)
      ensures HasEnabled(gs + [record], id)
    {
      var g :| g in gs && g.name == id && g.enabled;
      assert g in gs + [record];
    }
    assert record in gs + [record];
    RegistrationKeepsNoDisabledActive(gs + [record], log, record, locationGranted);
  }

  /** The start-up loop, run over records of the list, keeps disabled
      records unsubscribed. */
  lemma {:induction false} StartupKeepsNoDisabledActive(gs: seq<GeofenceData>, log: seq<Effect>, done: seq<GeofenceData>, locationGranted: bool)
    requires forall g :: g in done ==> g in gs
    requires NoDisabledActive(gs, log)
    ensures NoDisabledActive(gs, log + StartupEffects(done, locationGranted))
    decreases |done|
  {
    if done == [] {
      assert log + StartupEffects(done, locationGranted) == log;
    } else {
      var init, last := done[..|done| - 1], done[|done| - 1];
      assert forall g :: g in init ==> g in done;
      StartupKeepsNoDisabledActive(gs, log, init, locationGranted);
      var prev := log + StartupEffects(init, locationGranted);
      assert log + StartupEffects(done, locationGranted) ==
        prev + (if last.enabled then Registration(last, locationGranted) else []);
      if last.enabled {
        RegistrationKeepsNoDisabledActive(gs, prev, last, locationGranted);
      } else {
        assert prev + [] == prev;
      }
    }
  }

  // ---------------------------------------------------------------------
  // Properties of the list changes

  lemma {:induction false} NamedAppend(a: seq<GeofenceData>, b: seq<GeofenceData>, name: string)
    ensures Named(a + b, name) == Named(a, name) + Named(b, name)
    decreases |a|
  {
    if a == [] {
      assert a + b == b;
    } else {
      var head := if a[0].name == name then [a[0]] else [];
      assert (a + b)[0] == a[0] && (a + b)[1..] == a[1..] + b;
      assert Named(a + b, name) == head + Named(a[1..] + b, name);
      NamedAppend(a[1..], b, name);
      assert Named(a, name) == head + Named(a[1..], name);
    }
  }

  lemma {:induction false} NamedAbsent(gs: seq<GeofenceData>, name: string)
    requires forall j :: 0 <= j < |gs| ==> gs[j].name != name
    ensures Named(gs, name) == []
    decreases |gs|
  {
    if gs != [] {
      NamedAbsent(gs[1..], name);
    }
  }

  lemma NamedSingle(g: GeofenceData, name: string)
    ensures Named([g], name) == if g.name == name then [g] else []
  {
    assert [g][1..] == [];
  }

  /** The records of one name, with and without one record in the middle. */
  lemma NamedSplice(before: seq<GeofenceData>, g: GeofenceData, after: seq<GeofenceData>, name: string)
    ensures Named(before + [g] + after, name) == Named(before, name) + Named([g], name) + Named(after, name)
    ensures Named(before + after, name) == Named(before, name) + Named(after, name)
  {
    NamedAppend(before + [g], after, name);
    NamedAppend(before, [g], name);
    NamedAppend(before, after, name);
  }

  /** Taking out a record that is the first of its name drops the head of
      that name's records and leaves every other name's records alone. */
  lemma {:induction false} NamedWithout(before: seq<GeofenceData>, g: GeofenceData, after: seq<GeofenceData>)
    requires Named(before, g.name) == []
    ensures Named(before + [g] + after, g.name) == [g] + Named(before + after, g.name)
    ensures forall other :: other != g.name ==> Named(before + after, other) == Named(before + [g] + after, other)
  {
    NamedSplice(before, g, after, g.name);
    NamedSingle(g, g.name);
    forall other | other != g.name
      ensures Named(before + after, other) == Named(before + [g] + after, other)
    {
      NamedWithoutOther(before, g, after, other);
    }
  }

  /** Taking out a record of another name leaves this name's records alone. */
  lemma NamedWithoutOther(before: seq<GeofenceData>, g: GeofenceData, after: seq<GeofenceData>, other: string)
    requires other != g.name
    ensures Named(before + after, other) == Named(before + [g] + after, other)
  {
    NamedSplice(before, g, after, other);
    NamedSingle(g, other);
    assert Named([g], other) == [];
    assert Named(before + [g] + after, other) == Named(before, other) + Named(after, other);
  }

  /** Delete removes the first record with the name and only it: the other
      records keep their relative order, every other name keeps its records,
      and any later duplicate survives. */
  lemma DeleteRemovesFirstOccurrence(gs: seq<GeofenceData>, name: string)
    requires IndexOfFirst(gs, name) != -1
    ensures |RemovedFirst(gs, name)| == |gs| - 1
    ensures forall j :: 0 <= j < IndexOfFirst(gs, name) ==> RemovedFirst(gs, name)[j] == gs[j]
    ensures forall j :: IndexOfFirst(gs, name) <= j < |gs| - 1 ==> RemovedFirst(gs, name)[j] == gs[j + 1]
    ensures multiset(RemovedFirst(gs, name)) + multiset{gs[IndexOfFirst(gs, name)]} == multiset(gs)
    ensures Named(gs, name) == [gs[IndexOfFirst(gs, name)]] + Named(RemovedFirst(gs, name), name)
    ensures forall other :: other != name ==> Named(RemovedFirst(gs, name), other) == Named(gs, other)
  {
    var i := IndexOfFirst(gs, name);
    Around(gs, i);
    NamedAbsent(gs[..i], name);
    NamedWithout(gs[..i], gs[i], gs[i + 1..]);
  }

  /** Writing position i keeps what precedes and what follows it. */
  lemma UpdateAround(gs: seq<GeofenceData>, i: nat, g: GeofenceData)
    requires i < |gs|
    ensures gs[i := g] == gs[..i] + [g] + gs[i + 1..]
  {
  }

  /** A list is what precedes position i, the record at i, and what follows. */
  lemma Around(gs: seq<GeofenceData>, i: nat)
    requires i < |gs|
    ensures gs == gs[..i] + [gs[i]] + gs[i + 1..]
    ensures multiset(gs[..i] + gs[i + 1..]) + multiset{gs[i]} == multiset(gs)
  {
  }

  /** Delete with no record of that name changes nothing and calls nothing. */
  lemma DeleteMissingIsNoOp(gs: seq<GeofenceData>, name: string)
    requires forall j :: 0 <= j < |gs| ==> gs[j].name != name
    ensures RemovedFirst(gs, name) == gs && DeleteEffects(gs, name) == []
  {
  }

  /** On a list without duplicate names, delete removes every trace of the
      name and keeps the names unique. */
  lemma DeleteUnique(gs: seq<GeofenceData>, name: string)
    requires UniqueNames(gs)
    ensures UniqueNames(RemovedFirst(gs, name))
    ensures forall g :: g in RemovedFirst(gs, name) ==> g.name != name
  {
  }

  /** The switch writes the row's record, with the new flag, over the first
      record carrying the row's name: the length and every other entry stay,
      the other names keep their records, and a later duplicate is untouched
      (the records of the name after the first are the same before and after). */
  lemma ToggleReplacesFirstOccurrence(gs: seq<GeofenceData>, row: GeofenceData, on: bool)
    requires IndexOfFirst(gs, row.name) != -1
    ensures |Toggled(gs, row, on)| == |gs|
    ensures Toggled(gs, row, on)[IndexOfFirst(gs, row.name)] == row.(enabled := on)
    ensures forall j :: 0 <= j < |gs| && j != IndexOfFirst(gs, row.name) ==> Toggled(gs, row, on)[j] == gs[j]
    ensures Named(gs, row.name) == [gs[IndexOfFirst(gs, row.name)]] + Named(RemovedFirst(gs, row.name), row.name)
    ensures Named(Toggled(gs, row, on), row.name) == [row.(enabled := on)] + Named(RemovedFirst(gs, row.name), row.name)
    ensures forall other :: other != row.name ==> Named(Toggled(gs, row, on), other) == Named(gs, other)
  {
    var i := IndexOfFirst(gs, row.name);
    var before, after := gs[..i], gs[i + 1..];
    var written := row.(enabled := on);
    Around(gs, i);
    UpdateAround(gs, i, written);
    NamedAbsent(before, row.name);
    NamedWithout(before, gs[i], after);
    NamedWithout(before, written, after);
  }

  /** On a list without duplicate names, switching a row that is in the list
      sets that record's flag and nothing else, and keeps the names unique. */
  lemma ToggleUnique(gs: seq<GeofenceData>, k: nat, on: bool)
    requires UniqueNames(gs) && k < |gs|
    ensures Toggled(gs, gs[k], on) == gs[k := gs[k].(enabled := on)]
    ensures UniqueNames(Toggled(gs, gs[k], on))
  {
  }

  /** The switch of a row whose name is not in the list changes nothing. */
  lemma ToggleMissingIsNoOp(gs: seq<GeofenceData>, row: GeofenceData, on: bool, locationGranted: bool)
    requires forall j :: 0 <= j < |gs| ==> gs[j].name != row.name
    ensures Toggled(gs, row, on) == gs && ToggleEffects(gs, row, on, locationGranted) == []
  {
  }

  /** The add dialog does not check names: adding a name already present
      creates a duplicate, and lookups by that name keep finding the older
      record, so the new row's switch and delete button act on the older one. */
  lemma AddShadowsDuplicate(gs: seq<GeofenceData>, record: GeofenceData)
    requires IndexOfFirst(gs, record.name) != -1
    ensures !UniqueNames(gs + [record])
    ensures IndexOfFirst(gs + [record], record.name) == IndexOfFirst(gs, record.name)
    ensures forall on :: Toggled(gs + [record], record, on)[|gs|] == record
  {
    var i := IndexOfFirst(gs, record.name);
    var all := gs + [record];
    assert all[i].name == all[|gs|].name;
    var k := IndexOfFirst(all, record.name);
    assert all[i].name == record.name;
  }
}
