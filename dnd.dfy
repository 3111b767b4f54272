/** The Do-Not-Disturb controller: a thin, permission-gated wrapper over the
    platform's notification-policy service (DNDHelper.kt). The platform is
    replaced by abstract state: the SDK level, whether notification-policy
    access has been granted, the current interruption filter, and whether
    the platform rejects (throws on) a request to change the filter. */
module Dnd {

  /** Build.VERSION_CODES.M: the first SDK level with notification-policy control. */
  const VersionCodeM: int := 23

  /** NotificationManager.INTERRUPTION_FILTER_* values. */
  const FilterAll: int := 1
  const FilterPriority: int := 2
  const FilterNone: int := 3
  const FilterAlarms: int := 4

  const StatusNotSupported := "Not supported on this Android version"
  const StatusNoPermission := "Permission not granted"
  const StatusTotalSilence := "Total Silence"
  const StatusPriorityOnly := "Priority Only"
  const StatusAlarmsOnly := "Alarms Only"
  const StatusAllNotifications := "All Notifications"
  const StatusUnknown := "Unknown"

  /** A snapshot of the platform state the controller reads and writes. */
  datatype DndState = DndState(
    sdkInt: int,
    policyAccessGranted: bool,
    interruptionFilter: int,
    rejectsFilterChange: bool)

  /** hasPermission: policy access is only meaningful from SDK M on. */
  function HasPermission(s: DndState): (r: bool)
    ensures r <==> s.sdkInt >= VersionCodeM && s.policyAccessGranted
  {
    if s.sdkInt >= VersionCodeM then s.policyAccessGranted else false
  }

  /** Whether a call to enable or disable DND gets past both gates and
      the platform's own filter change. */
  predicate ChangeSucceeds(s: DndState)
  {
    HasPermission(s) && !s.rejectsFilterChange
  }

  /** getCurrentDNDStatus: describes the state in one of seven strings. */
  function CurrentStatus(s: DndState): (r: string)
    ensures r == StatusNotSupported <==> s.sdkInt < VersionCodeM
    ensures r == StatusNoPermission <==> s.sdkInt >= VersionCodeM && !s.policyAccessGranted
    ensures r == StatusTotalSilence <==> HasPermission(s) && s.interruptionFilter == FilterNone
    ensures r == StatusPriorityOnly <==> HasPermission(s) && s.interruptionFilter == FilterPriority
    ensures r == StatusAlarmsOnly <==> HasPermission(s) && s.interruptionFilter == FilterAlarms
    ensures r == StatusAllNotifications <==> HasPermission(s) && s.interruptionFilter == FilterAll
    ensures r == StatusUnknown <==>
      HasPermission(s) && s.interruptionFilter !in {FilterNone, FilterPriority, FilterAlarms, FilterAll}
  {
    if s.sdkInt >= VersionCodeM then
      if !s.policyAccessGranted then StatusNoPermission
      else if s.interruptionFilter == FilterNone then StatusTotalSilence
      else if s.interruptionFilter == FilterPriority then StatusPriorityOnly
      else if s.interruptionFilter == FilterAlarms then StatusAlarmsOnly
      else if s.interruptionFilter == FilterAll then StatusAllNotifications
      else StatusUnknown
    else
      StatusNotSupported
  }

  /** The platform's notification manager, whose interruption filter the
      controller changes in place. */
  class NotificationManager {
    var sdkInt: int
    var policyAccessGranted: bool
    var interruptionFilter: int
    var rejectsFilterChange: bool

    constructor (s: DndState)
      ensures State() == s
    {
      sdkInt := s.sdkInt;
      policyAccessGranted := s.policyAccessGranted;
      interruptionFilter := s.interruptionFilter;
      rejectsFilterChange := s.rejectsFilterChange;
    }

    function State(): DndState
      reads this
    {
      DndState(sdkInt, policyAccessGranted, interruptionFilter, rejectsFilterChange)
    }

    /** setInterruptionFilter: either installs the filter or throws, in
        which case the filter is left as it was. */
    method SetInterruptionFilter(filter: int) returns (thrown: bool)
      modifies this`interruptionFilter
      ensures thrown == rejectsFilterChange
      ensures State() == if thrown then old(State()) else old(State()).(interruptionFilter := filter)
    {
      thrown := rejectsFilterChange;
      if !thrown {
        interruptionFilter := filter;
      }
    }
  }

  /** enableDND: total silence, if the SDK level and policy access allow it.
      A rejected filter change is caught and reported as false. */
  method EnableDnd(nm: NotificationManager) returns (ok: bool)
    modifies nm`interruptionFilter
    ensures ok <==> ChangeSucceeds(old(nm.State()))
    ensures ok ==> nm.State() == old(nm.State()).(interruptionFilter := FilterNone)
    ensures !ok ==> nm.State() == old(nm.State())
    ensures ok ==> CurrentStatus(nm.State()) == StatusTotalSilence
  {
    if nm.sdkInt >= VersionCodeM {
      if nm.policyAccessGranted {
        var thrown := nm.SetInterruptionFilter(FilterNone);
        ok := !thrown;
      } else {
        ok := false;
      }
    } else {
      ok := false;
    }
  }

  /** disableDND: all notifications, under the same gates as EnableDnd. */
  method DisableDnd(nm: NotificationManager) returns (ok: bool)
    modifies nm`interruptionFilter
    ensures ok <==> ChangeSucceeds(old(nm.State()))
    ensures ok ==> nm.State() == old(nm.State()).(interruptionFilter := FilterAll)
    ensures !ok ==> nm.State() == old(nm.State())
    ensures ok ==> CurrentStatus(nm.State()) == StatusAllNotifications
  {
    if nm.sdkInt >= VersionCodeM {
      if nm.policyAccessGranted {
        var thrown := nm.SetInterruptionFilter(FilterAll);
        ok := !thrown;
      } else {
        ok := false;
      }
    } else {
      ok := false;
    }
  }
}
