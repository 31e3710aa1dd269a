/**
 * The tracker service (app/lib/StepTracker.ts): the background task that adds
 * each step delta to today's count, reconciliation against the pedometer's
 * history, and the registration lifecycle.
 *
 * The pedometer, the task manager's answers and the store's failures are
 * oracles: each operation takes their outcomes as parameters.
 */
module StepTracker {
  import opened Wrappers
  import opened StepStorage

  /** The name the background task is defined and registered under. */
  const BackgroundStepTask: string := "BACKGROUND_STEP_TRACKER"

  const DayMs: int := 86400000

  /**
   * The clock at one instant: the UTC calendar date (which names the storage
   * key), milliseconds since the epoch, and the local zone's offset from UTC
   * (local time = UTC + offsetMs).
   */
  datatype Clock = Clock(utcDate: Date, ms: int, offsetMs: int)

  /** What `Pedometer.requestPermissionsAsync()` reports. */
  datatype PermissionStatus = Granted | Denied | Undetermined

  /**
   * What `Pedometer.getStepCountAsync(start, end)` gives: it throws, or it
   * returns a result whose `steps` is a number (Some) or is missing (None).
   */
  datatype StepCountQuery = Threw | Returned(steps: Option<int>)

  /** One invocation of the background task: an error, and the delta in `data.steps` if data came. */
  datatype TaskEvent = TaskEvent(error: bool, steps: Option<int>)

  /** `start.setHours(0, 0, 0, 0)` applied to now: the latest local midnight not after now. */
  function LocalMidnight(nowMs: int, offsetMs: int): (start: int)
    ensures start <= nowMs < start + DayMs
    ensures (start + offsetMs) % DayMs == 0
  {
    var sinceMidnight := (nowMs + offsetMs) % DayMs;
    assert nowMs + offsetMs == (nowMs + offsetMs) / DayMs * DayMs + sinceMidnight;
    nowMs - sinceMidnight
  }

  /** The store and the result after one reconcileSteps call, given what the query returned. */
  function ReconcileOutcome(items: map<string, string>, today: Date, q: StepCountQuery,
                            readFails: bool, writeFails: bool): (o: Outcome)
    requires WellFormed(items) && ValidDate(today)
    ensures WellFormed(o.items)
    ensures o.items - {DayKey(today)} == items - {DayKey(today)}
    ensures q.Returned? && q.steps.Some? ==>
      o.value == q.steps.value
      && (!writeFails ==> StoredCount(o.items, today) == q.steps.value)
      && (writeFails ==> o.items == items)
    ensures !(q.Returned? && q.steps.Some?) ==>
      o.items == items && o.value == ReadTodaySteps(items, today, readFails)
  {
    if q.Returned? && q.steps.Some? then
      Outcome(SetTodayStepsOutcome(items, today, q.steps.value, writeFails), q.steps.value)
    else
      Outcome(items, ReadTodaySteps(items, today, readFails))
  }

  /** The store after the background task handles one event. */
  function HandleEventOutcome(items: map<string, string>, today: Date, e: TaskEvent,
                              readFails: bool, writeFails: bool): (r: map<string, string>)
    requires WellFormed(items) && ValidDate(today)
    ensures WellFormed(r)
    ensures r - {DayKey(today)} == items - {DayKey(today)}
    ensures e.error || e.steps.None? || writeFails ==> r == items
    ensures !e.error && e.steps.Some? && !writeFails ==>
      StoredCount(r, today) == ReadTodaySteps(items, today, readFails) + e.steps.value
  {
    if e.error then items
    else if e.steps.Some? then AddStepsOutcome(items, today, e.steps.value, readFails, writeFails).items
    else items
  }

  /** The store after the background task handles each event in turn, the store never failing. */
  function HandleEvents(items: map<string, string>, today: Date, events: seq<TaskEvent>): (r: map<string, string>)
    requires WellFormed(items) && ValidDate(today)
    ensures WellFormed(r)
    decreases |events|
  {
    if events == [] then items
    else HandleEvents(HandleEventOutcome(items, today, events[0], false, false), today, events[1..])
  }

  /** The steps the events that carry data without an error report. */
  function DeliveredSteps(events: seq<TaskEvent>): int {
    if events == [] then 0
    else (if !events[0].error && events[0].steps.Some? then events[0].steps.value else 0)
         + DeliveredSteps(events[1..])
  }

  /** Delta accumulation: today's count grows by exactly the steps of the events that were not errors. */
  lemma {:induction false} EventsAccumulate(items: map<string, string>, today: Date, events: seq<TaskEvent>)
    requires WellFormed(items) && ValidDate(today)
    ensures StoredCount(HandleEvents(items, today, events), today)
            == StoredCount(items, today) + DeliveredSteps(events)
    decreases |events|
  {
    if events != [] {
      EventsAccumulate(HandleEventOutcome(items, today, events[0], false, false), today, events[1..]);
    }
  }

  /** Events handled on one day leave every other day's count as it was. */
  lemma {:induction false} EventsKeepOtherDays(items: map<string, string>, today: Date,
                                               events: seq<TaskEvent>, other: Date)
    requires WellFormed(items) && ValidDate(today) && ValidDate(other) && other != today
    ensures StoredCount(HandleEvents(items, today, events), other) == StoredCount(items, other)
    decreases |events|
  {
    if events != [] {
      var next := HandleEventOutcome(items, today, events[0], false, false);
      DayKeyInjective(today, other);
      assert StoredCount(next, other) == StoredCount(items, other);
      EventsKeepOtherDays(next, today, events[1..], other);
    }
  }

  /**
   * Starting from an empty store, deltas of 10 and then 5 leave 15 for the
   * day; the next day, which has no entry, still reads 0.
   */
  lemma DeltaScenario(today: Date, tomorrow: Date)
    requires ValidDate(today) && ValidDate(tomorrow) && tomorrow != today
    ensures var events := [TaskEvent(false, Some(10)), TaskEvent(false, Some(5))];
      var r := HandleEvents(map[], today, events);
      StoredCount(r, today) == 15 && StoredCount(r, tomorrow) == 0
  {
    var events := [TaskEvent(false, Some(10)), TaskEvent(false, Some(5))];
    EventsAccumulate(map[], today, events);
    EventsKeepOtherDays(map[], today, events, tomorrow);
  }

  /** Reconciliation twice with the same hardware answer gives what it gave once. */
  lemma ReconcileIdempotent(items: map<string, string>, today: Date, q: StepCountQuery,
                            readFails: bool, writeFails: bool)
    requires WellFormed(items) && ValidDate(today)
    ensures var once := ReconcileOutcome(items, today, q, readFails, writeFails);
      ReconcileOutcome(once.items, today, q, readFails, writeFails) == once
  {
  }

  /**
   * Overwrite wins: after deltas have built up 120 for today, a hardware
   * total of 97 replaces it, and reconciliation returns 97.
   */
  lemma OverwriteWinsScenario(today: Date, readFails: bool)
    requires ValidDate(today)
    ensures var before := HandleEvents(map[], today, [TaskEvent(false, Some(120))]);
      var o := ReconcileOutcome(before, today, Returned(Some(97)), readFails, false);
      StoredCount(before, today) == 120 && StoredCount(o.items, today) == 97 && o.value == 97
  {
    EventsAccumulate(map[], today, [TaskEvent(false, Some(120))]);
  }

  /**
   * The storage key follows the UTC date but the query window starts at local
   * midnight. With zero offset the window starts at the UTC midnight of now's
   * UTC day.
   */
  lemma UtcWindowStartsAtUtcMidnight(nowMs: int)
    ensures LocalMidnight(nowMs, 0) == nowMs / DayMs * DayMs
  {
  }

  /**
   * East of UTC (0 < offset), late in the UTC day the local day has already
   * begun: the window starts DayMs - offset after the UTC midnight of now's
   * UTC day, so a total for that window leaves out the steps taken earlier
   * that UTC day.
   */
  lemma EastWindowStartsAfterUtcMidnight(nowMs: int, offsetMs: int)
    requires 0 < offsetMs < DayMs && nowMs % DayMs >= DayMs - offsetMs
    ensures LocalMidnight(nowMs, offsetMs) == nowMs / DayMs * DayMs + (DayMs - offsetMs)
  {
    var q, r := nowMs / DayMs, nowMs % DayMs;
    ShiftedRemainder(nowMs + offsetMs, q + 1, r + offsetMs - DayMs);
  }

  /**
   * West of UTC (offset < 0), early in the UTC day the local day is still the
   * previous one: the window starts before the UTC midnight of now's UTC day.
   */
  lemma WestWindowStartsBeforeUtcMidnight(nowMs: int, offsetMs: int)
    requires -DayMs < offsetMs < 0 && nowMs % DayMs < -offsetMs
    ensures LocalMidnight(nowMs, offsetMs) == nowMs / DayMs * DayMs - (DayMs + offsetMs)
  {
    var q, r := nowMs / DayMs, nowMs % DayMs;
    ShiftedRemainder(nowMs + offsetMs, q - 1, r + offsetMs + DayMs);
  }

  lemma ShiftedRemainder(a: int, q: int, r: int)
    requires 0 <= r < DayMs && a == q * DayMs + r
    ensures a % DayMs == r
  {
  }

  /** The background task handler: one read-modify-write of today's count per delta. */
  method HandleBackgroundEvent(storage: StepStore, today: Date, e: TaskEvent,
                               readFails: bool, writeFails: bool)
    requires storage.Valid() && ValidDate(today)
    modifies storage
    ensures storage.Valid()
    ensures storage.items == HandleEventOutcome(old(storage.items), today, e, readFails, writeFails)
  {
    if e.error {
      return;
    }
    if e.steps.Some? {
      var newTotal := storage.AddSteps(today, e.steps.value, readFails, writeFails);
    }
  }

  /**
   * The state the tracker works on: the counter store, and the task manager's
   * registrations, one entry per registration of a task name.
   */
  class Tracker {
    const storage: StepStore
    var registrations: multiset<string>

    /** The store is well formed and the background task is registered at most once. */
    ghost predicate Valid()
      reads this, storage
    {
      storage.Valid() && registrations[BackgroundStepTask] <= 1
    }

    constructor (storage: StepStore, registrations: multiset<string>)
      requires storage.Valid() && registrations[BackgroundStepTask] <= 1
      ensures Valid() && this.storage == storage && this.registrations == registrations
    {
      this.storage := storage;
      this.registrations := registrations;
    }

    /**
     * Queries the pedometer's history from local midnight to now and, when it
     * reports a number, overwrites today's count with it; otherwise falls back
     * to the stored count.
     */
    method ReconcileSteps(clock: Clock, query: (int, int) -> StepCountQuery,
                          readFails: bool, writeFails: bool) returns (steps: int)
      requires Valid() && ValidDate(clock.utcDate)
      modifies storage
      ensures Valid()
      ensures Outcome(storage.items, steps) ==
        ReconcileOutcome(old(storage.items), clock.utcDate,
                         query(LocalMidnight(clock.ms, clock.offsetMs), clock.ms),
                         readFails, writeFails)
    {
      var end := clock.ms;
      var start := LocalMidnight(clock.ms, clock.offsetMs);
      var result := query(start, end);
      if result.Returned? && result.steps.Some? {
        storage.SetTodaySteps(clock.utcDate, result.steps.value, writeFails);
        return result.steps.value;
      }
      steps := storage.GetTodaySteps(clock.utcDate, readFails);
    }

    /**
     * Checks availability, then permission; on a grant, reconciles and then
     * registers the background task unless it already is.
     */
    method Init(clock: Clock, available: bool, permission: PermissionStatus,
                query: (int, int) -> StepCountQuery, readFails: bool, writeFails: bool)
      returns (ok: bool)
      requires Valid() && ValidDate(clock.utcDate)
      modifies this, storage
      ensures Valid()
      ensures ok <==> available && permission == Granted
      ensures !ok ==> storage.items == old(storage.items) && registrations == old(registrations)
      ensures ok ==> (storage.items ==
                      ReconcileOutcome(old(storage.items), clock.utcDate,
                                       query(LocalMidnight(clock.ms, clock.offsetMs), clock.ms),
                                       readFails, writeFails).items)
      ensures ok ==> registrations == if BackgroundStepTask in old(registrations)
                                      then old(registrations)
                                      else old(registrations) + multiset{BackgroundStepTask}
      ensures ok ==> registrations[BackgroundStepTask] == 1
    {
      if !available {
        return false;
      }
      if permission != Granted {
        return false;
      }
      var reconciled := ReconcileSteps(clock, query, readFails, writeFails);
      var isRegistered := BackgroundStepTask in registrations;
      if !isRegistered {
        registrations := registrations + multiset{BackgroundStepTask};
      }
      return true;
    }

    method IsTracking() returns (registered: bool)
      ensures registered <==> registrations[BackgroundStepTask] > 0
    {
      registered := BackgroundStepTask in registrations;
    }

    /** Unregisters every task, and only when the background task is registered. */
    method StopTracking()
      requires Valid()
      modifies this
      ensures Valid()
      ensures registrations == if BackgroundStepTask in old(registrations)
                               then multiset{}
                               else old(registrations)
    {
      var isRegistered := BackgroundStepTask in registrations;
      if isRegistered {
        registrations := multiset{};
      }
    }
  }
}
