# Subscription lifecycle model

A Dafny model of the `Subscription` class in `subscription.py`. The class tracks one
subscription of a user to a plan (`basic`, `premium`, `pro`, or any other name). It has
two flags, `cancelled` and `paused`, and records the instants at which it started,
ended, was last paused and was last resumed. Four guarded mutators change these fields
in place: `cancel`, `change_plan`, `pause` and `resume`. Each guard raises its own
`ValueError`. Four queries read the fields: the active duration in whole days, the daily
rate of the plan, the pro-rated cost and a status message.

The model has four modules:

- `Clock` (`clock.dfy`): instants are integer seconds. `DaysBetween` is the `.days` of a
  difference: the floor of the number of days, which is also what Dafny's `/` gives for a
  positive divisor.
- `Text` (`text.dfy`): substring search (Python's `in`) and a decimal rendering of
  integers. The rendering stands in for the timestamp text inside status messages.
- `Subscriptions` (`subscriptions.dfy`): the object's fields as a value (`Fields`). It
  holds each mutator's guards (`Guard`) and assignments (`Effect`), runs of calls
  (`Run`), the object invariant (`Consistent`), the queries and the status message.
  It also holds the lemmas about all of these.
- `SubscriptionClass` (`subscription_class.dfy`): the class itself, with the same
  fields. Its methods update the fields in place. Each method returns `Pass`, or
  `Fail(e)` for the `ValueError` it raises. On `Fail(e)` every field keeps its value.
  Each method's contract gives the new fields outright and equates them with `After`
  on the old fields, so the lemmas about runs apply to the object.

The clock is never read. Every operation that reads `datetime.now()` in the source takes
the current instant `now` as a parameter. Modelling `now` as whole seconds is exact here:
start dates are stored with whole-second resolution, and the floor of
`(now - start) / day` is the same whether `now` has a fraction of a second or not.

Money is in integer cents: 1.00, 2.50 and 5.00 per day become 100, 250 and 500.

The queries `calculate_active_duration` and `calculate_pro_rated_cost` raise `TypeError`
when they parse an `end_date` or `paused_at` that is `None`. The model returns
`Failure(EndDateMissing)` or `Failure(PausedAtMissing)` for this. Only the all-fields
constructor or a direct write to a field (the fields are public attributes) can produce
such a state. `QueriesTotal` shows that the queries never fail on
a consistent subscription. `ReachableIsConsistent` shows that every subscription created
fresh and then changed only through the mutators is consistent.

Three behaviours of the code are worth knowing:

- A subscription becomes paused and cancelled through the public methods alone: pause,
  then cancel. `cancel` neither checks nor clears `paused` (`PausedAndCancelledReachable`).
- `resume` has no cancellation guard, so a paused and cancelled subscription can be
  resumed, while `pause` is refused once cancelled.
- While paused, the pro-rated cost charges the days since the pause began; see
  "## Findings".

## Model

| member | source | states |
|---|---|---|
| `Clock.DaysBetween` | subscription.py:37 | the day count is the largest whole number of days that fits in the interval: `d * 86400 <= to - from < (d + 1) * 86400`, so negative intervals round down like `timedelta.days` |
| `Clock.DaysBetweenUnique` | subscription.py:37 | any `d` with the floor property is the day count |
| `Clock.WholeDays` | subscription.py:37 | an interval of `k` days plus less than a day counts as `k` |
| `Clock.DaysMonotone` | subscription.py:68-74 | a later end never gives fewer days |
| `Clock.DaysSplit` | subscription.py:68-74 | splitting an interval at a middle instant: the whole count minus the first part's count is the second part's count, or one more than it |
| `Text.DecimalRoundTrip` | subscription.py:85-88 | the decimal text that stands in for a timestamp reads back to the instant it was written from |
| `Text.Occurs` | test/test_unit.py:102-114 | Python's `w in s`; nothing longer than `s` occurs in it |
| `Text.OccursAsSlice` | test/test_unit.py:102-114 | `w` occurs in `s` exactly when some slice `s[i..i+|w|]` with `0 <= i <= |s| - |w|` equals `w` (`OccursAt`), the empty string included, which is what Python's `in` finds |
| `Text.OccursBetween` | test/test_unit.py:102-114 | `w` occurs in every string built around it |
| `Text.NotOccursWithout` | test/test_unit.py:102-114 | a string with a character that `s` lacks does not occur in `s` |
| `Subscriptions.ErrorMessage` | subscription.py:18-51 | the five `ValueError` texts; the refusals because of the subscription's own state read "Subscription is ...", the refused plan change and pause of a cancelled subscription read "Cannot ..." |
| `Subscriptions.ErrorMessagesDistinct` | subscription.py:18-51 | the five `ValueError` messages are pairwise different, so each guard's error is identified by its message |
| `Subscriptions.Init` | subscription.py:5-14 | `__init__` copies every field as given; a missing start date becomes the current instant |
| `Subscriptions.FreshIsConsistent` | subscription.py:5-14 | a subscription created with only a user and a plan is not cancelled and not paused, has no end, pause or resume instant, starts now, and satisfies the invariant |
| `Subscriptions.Guard` | subscription.py:16-53 | the guards in source order: `cancel` fails with `AlreadyCancelled` exactly when cancelled, `change_plan` with `PlanChangeWhenCancelled` exactly when cancelled; `pause` fails with `AlreadyPaused` when paused (even when cancelled), otherwise with `PauseWhenCancelled` exactly when cancelled; `resume` fails with `NotPaused` exactly when not paused, cancelled or not; an active subscription accepts everything except `resume` |
| `Subscriptions.Effect` | subscription.py:16-53 | the assignments after the guards: `cancel` sets `end_date := now` and `cancelled`; `change_plan` sets the plan to the name given; `pause` sets `paused_at := now` and `paused`; `resume` sets `resumed_at := now` and clears `paused`; each leaves every other field, the pause fields included, as it was, never changes the user name or start date, never clears `cancelled`, and keeps the invariant |
| `Subscriptions.Step` | subscription.py:16-53 | a call raises exactly when its guard fails, with the guard's error; otherwise it yields the assignments' result |
| `Subscriptions.After` | subscription.py:16-53 | a call that raises leaves every field as it was; one that does not leaves the new fields |
| `Subscriptions.StepKeepsConsistent` | subscription.py:16-53 | every mutator call, failing or not, keeps `cancelled ==> end_date set` and `paused ==> paused_at set` |
| `Subscriptions.RunKeepsConsistent` | subscription.py:16-53 | every sequence of mutator calls from a consistent state ends in a consistent state |
| `Subscriptions.ReachableIsConsistent` | subscription.py:5-53 | every subscription reached from a fresh one through the mutators is consistent |
| `Subscriptions.RunKeepsIdentity` | subscription.py:16-53 | no mutator changes the user name or the start date |
| `Subscriptions.CancelledIsFinal` | subscription.py:16-53 | once cancelled, a subscription stays cancelled and keeps its end date, plan and pause instant; it never becomes paused again, though `resume` may still unpause it |
| `Subscriptions.PausedAndCancelledReachable` | subscription.py:16-53 | pause at `t1` then cancel at `t2` gives a subscription that is paused and cancelled, with `paused_at = t1` and `end_date = t2`; `resume` then succeeds |
| `Subscriptions.EndBoundary` | subscription.py:31-34 | the period ends at `end_date` when cancelled and at `now` otherwise; it fails exactly when a cancelled subscription has no end date |
| `Subscriptions.ActiveDuration` | subscription.py:29-37 | whole days from the start date to the end boundary, paused time included; it fails exactly when a cancelled subscription has no end date |
| `Subscriptions.DailyRate` | subscription.py:55-58 | premium is 250 cents a day, pro 500, and every other plan name (basic included) 100 |
| `Subscriptions.ProRatedCost` | subscription.py:60-80 | the active duration times the daily rate when not paused. While paused, cancelled or not, the days from start to the pause instant are subtracted first. It fails exactly when a needed end date or pause instant is missing, and the missing end date is reported first |
| `Subscriptions.QueriesTotal` | subscription.py:29-80 | on a consistent subscription, the duration and cost queries never fail |
| `Subscriptions.CostBounds` | subscription.py:60-80 | with start <= pause <= end boundary, the cost is between 0 and the whole period's cost |
| `Subscriptions.PausedCostCountsDaysSincePause` | subscription.py:70-74 | as written, a paused subscription is charged for the days since the pause began (or one day more), not the days before it |
| `Subscriptions.PausedCostCounterexample` | subscription.py:70-74 | started 10 days ago and paused 2 days ago on basic: charged 2.00, where the 8 active days before the pause cost 8.00 |
| `Subscriptions.ProRatedCostBeforePause` | subscription.py:70-74 | the intended cost: while paused, the days from start to the pause instant times the rate; the same as `ProRatedCost` when not paused |
| `Subscriptions.CostBeforePauseBounds` | subscription.py:60-80 | with start <= pause <= end boundary, the intended paused cost is between 0 and the whole period's cost |
| `Subscriptions.TenDaysActive` | test/test_unit.py:44-46 | started 10 days before now and not cancelled: duration 10 and, on basic, cost 10.00 (also the case at test/test_unit.py:81-83) |
| `Subscriptions.CancelFreezesDuration` | test/test_unit.py:50-53 | started 5 days ago and cancelled now: duration 5 at every later instant; started 10 days ago and cancelled: 10.00 on basic (also the case at test/test_unit.py:94-97) |
| `Subscriptions.PausedFiveDaysAgo` | test/test_unit.py:87-91 | started 10 days ago, paused, pause instant then set to 5 days ago: 5.00 on basic, under both the as-written and the intended adjustment |
| `Subscriptions.Stamp` | subscription.py:85-87 | a missing timestamp reads `None`, as in an f-string; a present one reads as its decimal text |
| `Subscriptions.StatusMessage` | subscription.py:82-88 | the three f-strings, cancelled before paused before active, each starting "Subscription is " and ending with "."; the timestamp is written by `Stamp` |
| `Subscriptions.StatusNamesState` | subscription.py:82-88 | "cancelled" occurs in the status iff cancelled; "paused" iff paused and not cancelled; "active" iff neither, so the priority is cancelled > paused > active |
| `Subscriptions.StatusNamesTimestamp` | subscription.py:82-88 | the status names `end_date` when cancelled, else `paused_at` when paused, else `start_date` |
| `Subscriptions.StampInjective` | subscription.py:85-87 | different optional timestamps give different texts |
| `Subscriptions.StatusDeterminesTimestamp` | subscription.py:82-88 | two subscriptions with the same status message report the same state with the same end date, pause instant or start date |
| `Subscriptions.StatusThroughLifecycle` | test/test_unit.py:100-114 | a fresh subscription reports "active"; after pause, "paused"; after resume, "active"; after cancel, "cancelled" |
| `SubscriptionClass.Subscription.constructor` | subscription.py:5-14 | the new object's fields are `Init` of the arguments |
| `SubscriptionClass.Subscription.Cancel` | subscription.py:16-21 | fails with `AlreadyCancelled` iff already cancelled, changing nothing; otherwise sets `end_date := now` and `cancelled`, and leaves `paused`, `paused_at`, `resumed_at` and the plan as they were; keeps the invariant |
| `SubscriptionClass.Subscription.ChangePlan` | subscription.py:23-27 | fails with `PlanChangeWhenCancelled` iff cancelled, changing nothing; otherwise only the plan changes, to any name given |
| `SubscriptionClass.Subscription.Pause` | subscription.py:39-46 | fails with `AlreadyPaused` if paused, else with `PauseWhenCancelled` if cancelled, changing nothing; otherwise sets `paused_at := now` and `paused` and nothing else |
| `SubscriptionClass.Subscription.Resume` | subscription.py:48-53 | fails with `NotPaused` iff not paused, cancelled or not, changing nothing; otherwise sets `resumed_at := now`, clears `paused`, and keeps `paused_at` |
| `SubscriptionClass.Lifecycle` | test/test_unit.py:24-77 | a client of the object's contracts alone: create, change plan, pause twice, resume twice, cancel, then pause, change plan and cancel are refused with the right errors and no field changes |

## Left out

- `db.py`: the SQLite table and the row mapping are not part of this model. The mapping only copies fields and casts 0/1 to booleans.
- `app.py`: the FastAPI routes, the Pydantic models and the 404 response are not part of this model. Domain errors are not caught there, so they are not modelled either.
- `func_main.py`: a demonstration script that prints results; not part of this model.
- The wall clock: `datetime.now()` is replaced by the parameter `now`.
- Timestamp strings: `strftime` and `strptime` are replaced by integer seconds. A malformed timestamp string, which makes `strptime` raise `ValueError`, has no counterpart.
- The naive local clock: the model counts every day as 86400 seconds, as differences of naive `datetime` values do, and does not model daylight-saving changes.
- `Subscriptions.Stamp`: writes a timestamp as decimal seconds, not as `YYYY-MM-DD HH:MM:SS`, because that format is a datetime library call. `StatusNamesState` depends only on the timestamp text lacking the letters v, l, d and p; `StatusDeterminesTimestamp` also depends on different instants being written differently. Both hold of `%Y-%m-%d %H:%M:%S` text and of `None`.
- `Subscriptions.Init`: takes the start date as an optional integer. The source also replaces other falsy start dates, such as the empty string, with the current instant; an integer has no such value.
- Floating point: rates and costs are exact integer cents. The source's float products of a day count and 1.0, 2.5 or 5.0 are exact for any realistic day count.
- Plan values that are not strings (such as `None`) are not modelled; the plan is a string. `get_daily_rate` would give a hashable non-string such as `None` the 1.00 fallback; an unhashable one, such as a list, makes `rates.get` raise `TypeError`.

## Findings

| source | as written | input that shows it | evidently intended | confidence | as-written member | corrected member |
|---|---|---|---|---|---|---|
| subscription.py:70-74 | while paused, subtracts the whole days from `start_date` to `paused_at` from the active days. What is left is the days since the pause began (or one more), and those days are charged | start 10 days before now, paused 2 days before now, basic plan: cost 2.00 | charge the active days before the pause (8 days, 8.00), as the docstring "based on active days", the comment "Adjust active days if the subscription was paused" and the unit test's comment "5 active days before the pause" describe; the unit test uses a pause midway through the period, where both readings give 5.00 | medium; not executed | `Subscriptions.ProRatedCost`, with `Subscriptions.PausedCostCounterexample` and `Subscriptions.PausedCostCountsDaysSincePause` | `Subscriptions.ProRatedCostBeforePause`, with `Subscriptions.CostBeforePauseBounds` |

The rest of the model uses neither cost function. `PausedFiveDaysAgo` shows that both
agree on the unit test's scenario.
