# HushBot geofence and Do-Not-Disturb logic in Dafny

HushBot is an Android app. The user defines named circular regions
("geofences"), and the app turns Do-Not-Disturb (DND) on when the device
enters one of them and off when it leaves. This project models the three
pieces of sequential logic in the app and proves their contracts. The
platform (location services, notification policy, toasts, notifications,
storage) is replaced by abstract state.

- `Geofences` (`geofences.dfy`) models the record table on the main screen
  (`MainActivity.kt`). `GeofenceScreen` is a class whose `geofences` field
  is the list of `GeofenceData` records. A ghost field holds the persisted
  copy of that list. An append-only log records `Subscribe`, `Unsubscribe`
  and `Toast` effects. Its methods are `addGeofence`, the start-up
  re-registration loop, and the switch, delete and add-dialog callbacks.
  The INSIDE / OUTSIDE / DISABLED badge is a function of the record and an
  optional distance.
- `Dnd` (`dnd.dfy`) models `DNDHelper`. It is a permission-gated controller
  over an abstract notification manager: SDK level, policy-access flag,
  interruption filter, and whether the platform throws on a filter change.
  `enableDND` and `disableDND` are methods that change the manager's filter.
  `hasPermission` and `getCurrentDNDStatus` are functions.
- `Receiver` (`receiver.dfy`) models `GeofenceBroadcastReceiver.onReceive`.
  It dispatches on a null event, an error event, or a transition kind with
  its triggering ids. It changes the DND state through `Dnd` and records
  DND calls, notifications and toasts in an event log.
- `Wrappers` (`wrappers.dfy`) holds the `Option` type. It stands for
  Kotlin's nullable values.

Each stateful method is proved against a specification function of the
old state: `Toggled`, `RemovedFirst`, `ToggleEffects`, `DeleteEffects`,
`Registration`, `StartupEffects`, `Dispatch` and `DispatchState`. The
lemmas state what the source promises about those functions.

Subscriptions of disabled records. `ActiveIds` replays the log to get the
set of request ids the platform would hold if every subscribe and
unsubscribe request took effect. `NoDisabledActive` says every one of
them names an enabled record of the list. The `...KeepsNoDisabledActive`
lemmas prove that start-up, addGeofence, the switch, delete and the add
dialog each keep this true, and the stateful methods state it about their
new state. So, as long as every request succeeds, no disabled record is
subscribed after a save, with or without duplicate names.

Lookups by name. The switch and delete callbacks receive the record of
the row that was clicked. They look that row up by name, taking the first
record with that name. The add dialog does not reject a name that already
exists. So when two records share a name, the second row's switch writes
its own record over the FIRST record, and the second row's delete button
removes the first record. `AddShadowsDuplicate`,
`ToggleReplacesFirstOccurrence` and `DeleteRemovesFirstOccurrence` state
this behaviour as the code has it. The callbacks look records up by name
(`indexOfFirst`, MainActivity.kt:562 and 582), so they act as a user
expects only when names are unique. `ToggleUnique` and `DeleteUnique` show that on a list with
unique names both callbacks do what a user expects, and that they keep
the names unique.

Constants follow the Android platform:
- `VERSION_CODES.M` = 23;
- `INTERRUPTION_FILTER_ALL` / `PRIORITY` / `NONE` / `ALARMS` = 1 / 2 / 3 / 4;
- `GEOFENCE_TRANSITION_ENTER` / `EXIT` = 1 / 2.

## Model

| member | source | states |
|---|---|---|
| `Geofences.IndexOfFirst` | app/src/main/java/com/example/hushbot/MainActivity.kt:562 | returns -1 exactly when no record has the name; otherwise returns an index holding the name, with no earlier index holding it |
| `Geofences.Badge` | app/src/main/java/com/example/hushbot/MainActivity.kt:327-358 | "DISABLED" iff the record is disabled; "INSIDE" iff enabled and a distance is present with distance <= radius; "OUTSIDE" iff enabled and either there is no distance or it exceeds the radius |
| `Geofences.DialogRecord` | app/src/main/java/com/example/hushbot/MainActivity.kt:628-634 | the dialog's record has the typed name and is enabled; an unparseable latitude or longitude becomes 0.0; an unparseable radius becomes 50 |
| `Geofences.GeofenceScreen.constructor` | app/src/main/java/com/example/hushbot/MainActivity.kt:134-135 | the screen starts from the stored list, so the list equals the persisted copy, and the log starts empty |
| `Geofences.GeofenceScreen.AddGeofence` | app/src/main/java/com/example/hushbot/MainActivity.kt:71-103 | appends exactly `Registration(data)` to the log: nothing for a disabled record; the permission toast without location access; otherwise one subscribe for the record's region under its name |
| `Geofences.RegistrationCalls` | app/src/main/java/com/example/hushbot/MainActivity.kt:72-96 | addGeofence never unsubscribes; it subscribes exactly `[data.name]` when the record is enabled and location access is granted, and nothing otherwise; a disabled record produces no effect at all |
| `Geofences.GeofenceScreen.ReRegisterAll` | app/src/main/java/com/example/hushbot/MainActivity.kt:172-177 | the start-up loop appends `StartupEffects(geofences)` to the log, that is, addGeofence applied to each enabled record in list order; if no disabled record was subscribed before, none is after |
| `Geofences.StartupSubscribesEnabled` | app/src/main/java/com/example/hushbot/MainActivity.kt:173-177 | with location access, start-up subscribes exactly the names of the enabled records, in list order; without it, start-up subscribes nothing; it never unsubscribes |
| `Geofences.GeofenceScreen.Toggle` | app/src/main/java/com/example/hushbot/MainActivity.kt:561-577 | the list becomes `Toggled(old list, row, flag)`; the persisted copy equals the new list; the log gains `ToggleEffects`: nothing if no record matches, the row re-registered when switched on, `Unsubscribe(name)` when switched off; if no disabled record was subscribed before, none is after |
| `Geofences.ToggleCalls` | app/src/main/java/com/example/hushbot/MainActivity.kt:563-575 | when the name is found: one subscribe of the name if switched on with location access; one unsubscribe of the name if switched off; no other subscribe or unsubscribe calls |
| `Geofences.ToggleReplacesFirstOccurrence` | app/src/main/java/com/example/hushbot/MainActivity.kt:562-564 | only the first index with the row's name is replaced, by the row's record with the new flag; the length and every other entry are unchanged; other names keep their records; later duplicates are untouched |
| `Geofences.ToggleUnique` | app/src/main/java/com/example/hushbot/MainActivity.kt:562-564 | with unique names, switching row k only sets record k's flag, and the names stay unique |
| `Geofences.ToggleMissingIsNoOp` | app/src/main/java/com/example/hushbot/MainActivity.kt:563 | when no record has the row's name, the switch changes neither the list nor the log |
| `Geofences.GeofenceScreen.Delete` | app/src/main/java/com/example/hushbot/MainActivity.kt:581-593 | the list becomes `RemovedFirst(old list, name)`; the persisted copy equals the new list; the log gains `Unsubscribe(name)` and the removal toast when a record matched, and nothing otherwise; if no disabled record was subscribed before, none is after |
| `Geofences.DeleteCalls` | app/src/main/java/com/example/hushbot/MainActivity.kt:583-584 | delete unsubscribes the name exactly once when a record has it, and otherwise makes no call; it never subscribes |
| `Geofences.DeleteRemovesFirstOccurrence` | app/src/main/java/com/example/hushbot/MainActivity.kt:582-586 | the length drops by one; the records before the first one with the name stay at their indices and every later record moves up by one, so all other records keep their relative order; the removed record is the first one with the name (the result plus that record is a permutation of the old list); later records with the same name survive in order; every other name keeps its records in order |
| `Geofences.DeleteUnique` | app/src/main/java/com/example/hushbot/MainActivity.kt:582-586 | with unique names, no record with the name remains after delete, and the names stay unique |
| `Geofences.DeleteMissingIsNoOp` | app/src/main/java/com/example/hushbot/MainActivity.kt:583 | when no record has the name, delete changes neither the list nor the log |
| `Geofences.GeofenceScreen.ConfirmAdd` | app/src/main/java/com/example/hushbot/MainActivity.kt:627-641 | when name, latitude and longitude are all non-blank: the enabled `DialogRecord` is appended at the end, the list is persisted, and addGeofence runs on it; otherwise the list is unchanged and only the "Please fill all fields" toast is logged; if no disabled record was subscribed before, none is after |
| `Geofences.ActiveWasSubscribed` | app/src/main/java/com/example/hushbot/MainActivity.kt:96-106 | replaying the log (a subscribe adds its id, an unsubscribe removes it), an id is active only if the log subscribed it at some point |
| `Geofences.RegistrationKeepsNoDisabledActive` | app/src/main/java/com/example/hushbot/MainActivity.kt:71-96 | addGeofence on a record of the list keeps every active id the name of an enabled record of the list |
| `Geofences.StartupKeepsNoDisabledActive` | app/src/main/java/com/example/hushbot/MainActivity.kt:172-177 | the start-up loop over records of the list keeps every active id the name of an enabled record |
| `Geofences.ToggleKeepsNoDisabledActive` | app/src/main/java/com/example/hushbot/MainActivity.kt:561-577 | after a switch and its save, every active id is still the name of an enabled record: switching off unsubscribes the name, switching on subscribes only the record it enables, even with duplicate names |
| `Geofences.DeleteKeepsNoDisabledActive` | app/src/main/java/com/example/hushbot/MainActivity.kt:581-593 | after a delete and its save, every active id is still the name of an enabled record, even with duplicate names |
| `Geofences.ConfirmAddKeepsNoDisabledActive` | app/src/main/java/com/example/hushbot/MainActivity.kt:627-641 | after the add dialog, accepted or refused, every active id is still the name of an enabled record |
| `Geofences.AddShadowsDuplicate` | app/src/main/java/com/example/hushbot/MainActivity.kt:635 | adding a name that already exists breaks name uniqueness; lookups by that name still find the older record; switching the new row, to either position, leaves the new record itself unchanged |
| `Dnd.HasPermission` | app/src/main/java/com/example/hushbot/DNDHelper.kt:78-85 | true exactly when SDK >= M and policy access is granted; always false below M; a pure query |
| `Dnd.CurrentStatus` | app/src/main/java/com/example/hushbot/DNDHelper.kt:104-122 | each of the seven strings holds exactly when its condition holds: below M; no access; NONE / PRIORITY / ALARMS / ALL; any other filter value ("Unknown") |
| `Dnd.NotificationManager.SetInterruptionFilter` | app/src/main/java/com/example/hushbot/DNDHelper.kt:26 | either installs the filter, or throws and leaves the state unchanged |
| `Dnd.EnableDnd` | app/src/main/java/com/example/hushbot/DNDHelper.kt:19-42 | returns true iff SDK >= M, access is granted and the platform accepts the change; then the filter is NONE and the status is "Total Silence"; otherwise it returns false and the state is unchanged |
| `Dnd.DisableDnd` | app/src/main/java/com/example/hushbot/DNDHelper.kt:49-71 | returns true iff SDK >= M, access is granted and the platform accepts the change; then the filter is ALL and the status is "All Notifications"; otherwise it returns false and the state is unchanged |
| `Receiver.OnReceive` | app/src/main/java/com/example/hushbot/GeofenceBroadcastReceiver.kt:22-76 | the log gains exactly `Dispatch(event, old state)` and the DND state becomes `DispatchState(event, old state)` |
| `Receiver.HandleRegions` | app/src/main/java/com/example/hushbot/GeofenceBroadcastReceiver.kt:42-75 | the forEach over the triggering ids appends `RegionsOutputs(kind, ids, gates open)` to the log, in id order, and leaves the DND state at `RegionsState(kind, ids, old state)` |
| `Receiver.HandleRegion` | app/src/main/java/com/example/hushbot/GeofenceBroadcastReceiver.kt:43-74 | one id: enter calls enableDND, exit calls disableDND, any other kind calls nothing; the returned outputs are the call with its result, then the notification and the toast of the matching message |
| `Receiver.IgnoredAndErrorEvents` | app/src/main/java/com/example/hushbot/GeofenceBroadcastReceiver.kt:27-42 | a null event, or an event with no triggering list, emits nothing and leaves the DND state alone; an error event emits only the toast carrying its error code |
| `Receiver.EnterCallsEnableOncePerRegion` | app/src/main/java/com/example/hushbot/GeofenceBroadcastReceiver.kt:46-56 | an enter event calls enableDND once per triggering id and never calls disableDND; it posts one notification and one toast per id |
| `Receiver.ExitCallsDisableOncePerRegion` | app/src/main/java/com/example/hushbot/GeofenceBroadcastReceiver.kt:58-68 | an exit event calls disableDND once per triggering id and never calls enableDND; it posts one notification and one toast per id |
| `Receiver.RegionOutputsAt` | app/src/main/java/com/example/hushbot/GeofenceBroadcastReceiver.kt:46-68 | for the k-th id: the DND call, then a "Geofence Alert" notification, then a toast, both carrying "Entered/Exited <id> - DND activated/deactivated" on success or the "... failed (check permissions)" text on failure |
| `Receiver.OtherTransitionsIgnored` | app/src/main/java/com/example/hushbot/GeofenceBroadcastReceiver.kt:70-73 | any other transition kind makes no DND call, emits nothing and leaves the DND state unchanged |
| `Receiver.DispatchStatus` | app/src/main/java/com/example/hushbot/GeofenceBroadcastReceiver.kt:42-68 | after an enter event with ids and open gates, the status reads "Total Silence"; after such an exit event, "All Notifications"; when the calls fail, the state is unchanged |

## Left out

- Compose layout, colours, cards, scrolling and text formatting are presentation. Only the callback bodies and the badge choice are modelled.
- `calculateDistance` (haversine formula) and the "Outside" test button's offset arithmetic are floating-point trigonometry. The distance reaches `Badge` as an opaque optional input.
- Doubles and Floats are modelled as `real`. Float rounding and NaN are not modelled.
- Gson serialisation and SharedPreferences (`saveGeofences`, `loadGeofences`) are not modelled. The persisted list is a ghost copy, and `Valid()` states that it equals the list after every change.
- `toDoubleOrNull` / `toFloatOrNull` are library parsers. Their results are `Option<real>` inputs to `ConfirmAdd`. The model does not relate them to the typed text.
- The geofencing client's asynchronous success and failure listeners, and their toasts, are not modelled. A subscribe or unsubscribe request appears in the log when it is issued. The fixed parts of a subscribe request are not recorded: NEVER_EXPIRE, the enter|exit mask, the initial ENTER trigger and the PendingIntent.
- `Geofences.GeofenceScreen.AddGeofence`: the platform's `Geofence.Builder().build()` runs before the permission check and rejects some arguments (a radius <= 0, a latitude outside [-90, 90], a longitude outside [-180, 180], a request id over 100 characters) by throwing. The argument checks belong to the platform library, which is not part of this model. `Registration`, `RegistrationCalls`, `StartupSubscribesEnabled` and `ConfirmAdd` therefore hold only for records the platform accepts. For a rejected record the source throws after `ConfirmAdd` has saved it, throws again at every start-up, and shows no permission toast. The model logs a subscribe or the permission toast instead.
- `Geofences.ActiveIds`: every `addGeofences` and `removeGeofences` request is taken to succeed, and the set of registered ids starts empty when the screen is built. In the source a failed request only shows a toast (MainActivity.kt:100-102, 110-112), and registrations survive app restarts. The `...KeepsNoDisabledActive` lemmas and the methods' `NoDisabledActive` clauses hold only under these two assumptions: for example, if the unsubscribe after switching a record off fails, that record stays registered while its saved copy is disabled.
- Log lines (`Log.d`, `Log.w`, `Log.e`) are not modelled. Notification-channel creation and the notification id taken from the clock are not modelled either.
- Permission launchers, the last-location fetch and the mock-location settings check are platform I/O. The location permission is a field the screen only reads.
- `MockLocationHelper.kt` is not part of this model. It is a wrapper over the platform's test-provider API.
- `DNDHelper.requestPermission` is not modelled. It launches a settings screen and has no observable result.
- `Receiver.OnReceive` reads whether the platform rejects a filter change from the manager's state. So within one broadcast, every DND call succeeds or every one fails. A platform that fails some calls and not others is not modelled.
- `Geofences.GeofenceScreen.ConfirmAdd`: when a field is blank, the log gains the "Please fill all fields" toast. The list and the subscribe and unsubscribe calls are unchanged.
- The callbacks take the row's record as the value captured when the row was drawn. Recomposition timing, and a row whose captured record is stale, are not modelled.
