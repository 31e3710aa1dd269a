# Step tracker model

A Dafny model of the step-tracking core of a fitness app: a step counter kept
per calendar day in durable key-value storage (`app/lib/StepStorage.ts`), and
the tracker service that writes to it (`app/lib/StepTracker.ts`).

- `decimal.dfy` (module `Decimal`): the decimal text that stored counts are
  kept in. `IntToString` models `toString()`. `ParseInt` models
  `parseInt(val, 10)`: an optional sign, then the longest run of digits, with
  NaN as `None`. The two are tied by a round-trip lemma.
- `step_storage.dfy` (module `StepStorage`): the day key
  `step_tracker_YYYY-MM-DD` and its inverse. The store is a
  `map<string, string>` standing for AsyncStorage. `StoredCount` gives the
  count a day holds. Pure functions give the outcome of `addSteps` and
  `setTodaySteps`. Class `StepStore` holds the store; its methods change it
  in place and are proved against those functions.
- `step_tracker.dfy` (module `StepTracker`): the background task handler, the
  local-midnight query window and reconciliation. Class `Tracker` adds the
  task manager's registrations (a multiset of task names) to the store. It
  has `Init`, `ReconcileSteps`, `IsTracking` and `StopTracking`.

The platform is given as oracle outcomes passed as parameters:
- the clock is a `Clock` value: the UTC date, epoch milliseconds and the zone offset;
- the pedometer's availability and permission status;
- the history query is a function from the window `(start, end)` to its result;
- each storage read or write has a failure flag.

Every operation is atomic and runs in sequence.

The key is built from `toISOString()`, so it follows the **UTC** date
(app/lib/StepStorage.ts:14). The query window starts at **local** midnight,
from `setHours(0, 0, 0, 0)` (app/lib/StepTracker.ts:83). When the zone offset is
not zero, the two days can differ. `EastWindowStartsAfterUtcMidnight` and
`WestWindowStartsBeforeUtcMidnight` show where they part.

`setTodaySteps` does not check the sign of its value
(app/lib/StepStorage.ts:50-57). The model stores any integer, and
`IntToString`/`ParseInt` carry the sign.

## Model

| member | source | states |
|---|---|---|
| `Decimal.DigitChar` | app/lib/StepStorage.ts:39 | the character written for a digit value reads back as that value |
| `Decimal.NatToDigits` | app/lib/StepStorage.ts:39 | `toString()` of a natural number is non-empty, all digits, with no leading zero except for 0 |
| `Decimal.DigitsValue` | app/lib/StepStorage.ts:24 | a string of k digits denotes a number below 10^k |
| `Decimal.LeadingDigits` | app/lib/StepStorage.ts:24 | `parseInt` reads the longest run of digits: all of it digits, and the next character (if any) not a digit |
| `Decimal.NatToDigitsValue` | app/lib/StepStorage.ts:24 | reading the digits of n gives back n |
| `Decimal.IntToString` | app/lib/StepStorage.ts:39 | `toString()` of an integer is non-empty, starts with '-' exactly for a negative value, and is all digits otherwise; `IntToStringRoundTrip` is its inverse |
| `Decimal.ParseInt` | app/lib/StepStorage.ts:24 | `parseInt(val, 10)` gives NaN (None) exactly when no digit follows the optional sign; a number read after '-' is not positive, any other number read is not negative |
| `Decimal.LeadingDigitsAfter` | app/lib/StepStorage.ts:24 | the run read stops where the digits end |
| `Decimal.IntToStringRoundTrip` | app/lib/StepStorage.ts:24 | `parseInt(n.toString())` is n for every integer, negative ones included, even with non-digit text after it |
| `StepStorage.PadDigits` | app/lib/StepStorage.ts:14 | a zero-padded field has exactly the width asked for, all digits |
| `StepStorage.PadDigitsValue` | app/lib/StepStorage.ts:14 | a zero-padded field reads back as the number padded |
| `StepStorage.IsoYear` | app/lib/StepStorage.ts:14 | the ISO year has four digits exactly for years 0..9999; other years get a sign, '-' exactly for negative years, and six digits |
| `StepStorage.IsoDate` | app/lib/StepStorage.ts:14 | the part of `toISOString()` before 'T' has 10 characters exactly for years 0..9999, 13 otherwise, with '-' before two-digit month and day fields; `IsoDateRoundTrip` is its inverse |
| `StepStorage.DayKey` | app/lib/StepStorage.ts:12-15 | the key starts with `step_tracker_` followed by the 10- or 13-character date part |
| `StepStorage.IsoDateRoundTrip` | app/lib/StepStorage.ts:14 | the date part before 'T' parses back to the date it was made from |
| `StepStorage.SignedYearRoundTrip` | app/lib/StepStorage.ts:14 | the same, for years written with a sign and six digits |
| `StepStorage.DayKeyRoundTrip` | app/lib/StepStorage.ts:12-15 | the key parses back to its date |
| `StepStorage.DayKeyInjective` | app/lib/StepStorage.ts:12-15 | two dates give the same key if and only if they are the same date, so a new day reads a fresh key |
| `StepStorage.StoredCount` | app/lib/StepStorage.ts:22-24 | a day whose key is absent reads 0; otherwise its count is what `parseInt` reads from the stored text |
| `StepStorage.ReadTodaySteps` | app/lib/StepStorage.ts:20-29 | getTodaySteps gives 0 on a read error or when today's key is absent, and otherwise the number `parseInt` reads from today's entry |
| `StepStorage.WriteCount` | app/lib/StepStorage.ts:39 | writing n's text under a day's key keeps the store well formed, makes that day read n, and leaves every other key as it was |
| `StepStorage.OtherDaysUnchanged` | app/lib/StepStorage.ts:36-39 | writing one day's count leaves every other day's count unchanged |
| `StepStorage.AddStepsOutcome` | app/lib/StepStorage.ts:34-45 | addSteps writes only today's key; it stores and returns (today's count, or 0 if the read failed) + c; if the write fails it returns 0 and the store is unchanged |
| `StepStorage.SetTodayStepsOutcome` | app/lib/StepStorage.ts:50-57 | after setTodaySteps(c) today reads c, whatever was stored and whatever the sign of c; only today's key changes; a failed write leaves the store unchanged |
| `StepStorage.StepStore.GetTodaySteps` | app/lib/StepStorage.ts:20-29 | returns 0 on a read error, 0 when today's key is absent, and the stored count otherwise; changes nothing |
| `StepStorage.StepStore.AddSteps` | app/lib/StepStorage.ts:34-45 | the store and the result are those of `AddStepsOutcome`; the store stays well formed |
| `StepStorage.StepStore.SetTodaySteps` | app/lib/StepStorage.ts:50-57 | the store is that of `SetTodayStepsOutcome`; the store stays well formed |
| `StepTracker.LocalMidnight` | app/lib/StepTracker.ts:81-83 | for one reading of the clock, the window's start is a local midnight no later than now and less than a day before it, so start <= end |
| `StepTracker.UtcWindowStartsAtUtcMidnight` | app/lib/StepTracker.ts:83 | with zero offset the window starts at the UTC midnight of now's UTC day |
| `StepTracker.EastWindowStartsAfterUtcMidnight` | app/lib/StepTracker.ts:81-83 | east of UTC, late in the UTC day, the window starts (day - offset) after the UTC midnight of now's UTC day |
| `StepTracker.WestWindowStartsBeforeUtcMidnight` | app/lib/StepTracker.ts:81-83 | west of UTC, early in the UTC day, the window starts on the previous UTC day |
| `StepTracker.ReconcileOutcome` | app/lib/StepTracker.ts:78-101 | when the query returns a numeric `steps` n, the result is n and today reads n unless the write failed; when it throws or has no numeric `steps`, the store is unchanged and the result is what getTodaySteps returns; only today's key ever changes |
| `StepTracker.ReconcileIdempotent` | app/lib/StepTracker.ts:86-92 | reconciling again with the same hardware answer changes neither the store nor the result |
| `StepTracker.OverwriteWinsScenario` | app/lib/StepTracker.ts:86-92 | a count of 120 built from deltas becomes 97 when the hardware reports 97, and 97 is returned |
| `StepTracker.HandleEventOutcome` | app/lib/StepTracker.ts:15-30 | on an error, no data or a failed write the store is unchanged; otherwise today's count becomes the read count plus `data.steps`; only today's key changes |
| `StepTracker.HandleEvents` | app/lib/StepTracker.ts:15-30 | handling a sequence of events keeps the store well formed |
| `StepTracker.EventsAccumulate` | app/lib/StepTracker.ts:15-30 | today's count grows by exactly the sum of the deltas of the events without error |
| `StepTracker.EventsKeepOtherDays` | app/lib/StepTracker.ts:15-30 | events handled today leave every other day's count unchanged |
| `StepTracker.DeltaScenario` | app/lib/StepTracker.ts:15-30 | from an empty store, deltas 10 then 5 leave 15, and another day still reads 0 |
| `StepTracker.HandleBackgroundEvent` | app/lib/StepTracker.ts:15-30 | the store is that of `HandleEventOutcome` and stays well formed |
| `StepTracker.Tracker.ReconcileSteps` | app/lib/StepTracker.ts:78-101 | queries the window from local midnight to now; the store and result are those of `ReconcileOutcome` for that answer; registrations are unchanged |
| `StepTracker.Tracker.Init` | app/lib/StepTracker.ts:40-71 | returns true if and only if the pedometer is available and permission is granted; otherwise the store and registrations are unchanged; on success the store is the reconciled one and the task is registered exactly once, added only if it was not registered already |
| `StepTracker.Tracker.IsTracking` | app/lib/StepTracker.ts:106-110 | true exactly when the background task is registered |
| `StepTracker.Tracker.StopTracking` | app/lib/StepTracker.ts:115-121 | when the background task is registered, every task is unregistered; otherwise nothing changes |

## Left out

- Numbers are integers. JavaScript's floating point is not modelled: NaN, infinities, fractions, precision beyond 2^53, and the exponent form `toString` uses from 1e21 upward.
- `parseInt`'s skipping of leading white space is not modelled. Neither is text under a day key that it cannot read: `WellFormed` assumes every day key holds decimal text, because only this counter writes those keys.
- Calendar arithmetic is not modelled. The clock's UTC date and its epoch milliseconds are given together, and their agreement is assumed, not proved: nothing ties `Clock.utcDate` to `Clock.ms / DayMs`. So the window lemmas speak of now's UTC day by its milliseconds, not of the key's date. Month lengths are not checked. The zone offset is taken as fixed through the day, so daylight-saving changes are left out.
- Concurrency is not modelled. Races between the background context and the foreground are left out, and every operation is atomic. This includes `addSteps` reading the date twice (lines 36 and 22), which could see two different days across midnight.
- `reconcileSteps` reads the clock three times: `end` (app/lib/StepTracker.ts:81), `start` (app/lib/StepTracker.ts:82), and the key after the awaited query (app/lib/StepStorage.ts:52 when called from app/lib/StepTracker.ts:91, or app/lib/StepStorage.ts:22 when called from app/lib/StepTracker.ts:98). The model reads one `Clock` per call, so it does not capture two cases. If local midnight falls between lines 81 and 82, `start` is the next midnight and start > end. If UTC midnight passes during the query, the local day's hardware total is written under the next UTC day's key.
- Rejected promises from `isAvailableAsync`, `requestPermissionsAsync`, `isTaskRegisteredAsync`, `watchSteps` and `unregisterAllTasksAsync` are not modelled; `init` and `stopTracking` would reject.
- `Pedometer.watchSteps(BACKGROUND_STEP_TRACKER)` is modelled as adding one registration of the task name. The subscription it starts is modelled only through the events the handler receives.
- Logging (`console.*`) and `alert` have no effect on state and are left out.
- The `useStepCounter` hook (app/lib/StepTracker.ts:127-170) is React UI code: state hooks, a polling interval and the app-state listener. It is not part of this model.
