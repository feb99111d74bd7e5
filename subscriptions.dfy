/**
 * The subscription state machine of `subscription.py`, on values: the
 * record of the object's fields, the guard and the effect of each of the four
 * mutators, runs of calls from a given state, and the queries the object
 * answers from its fields (active duration, daily rate, pro-rated cost and
 * status message).
 *
 * Timestamps are integer seconds; every operation that reads the clock takes
 * the current instant `now` as a parameter.
 */
module Subscriptions {
  import opened Clock
  import opened Text

  datatype Option<T> = None | Some(value: T)

  datatype Result<T, E> = Success(value: T) | Failure(error: E)

  datatype Outcome<E> = Pass | Fail(error: E)

  /** The five `ValueError`s the guarded mutators raise. */
  datatype TransitionError =
    | AlreadyCancelled
    | PlanChangeWhenCancelled
    | AlreadyPaused
    | PauseWhenCancelled
    | NotPaused

  /**
   * The message each `ValueError` carries: a refusal because of the state the
   * subscription is in reads "Subscription is ...", a refused action on a
   * cancelled subscription reads "Cannot ...".
   */
  function ErrorMessage(e: TransitionError): (m: string)
    ensures e.AlreadyCancelled? || e.AlreadyPaused? || e.NotPaused? ==> "Subscription is " <= m
    ensures e.PlanChangeWhenCancelled? || e.PauseWhenCancelled? ==> "Cannot " <= m
  {
    match e
    case AlreadyCancelled => "Subscription is already cancelled"
    case PlanChangeWhenCancelled => "Cannot change the plan of a cancelled subscription"
    case AlreadyPaused => "Subscription is already paused"
    case PauseWhenCancelled => "Cannot pause a cancelled subscription"
    case NotPaused => "Subscription is not paused"
  }

  /** A caller can tell every error apart by its message alone. */
  lemma ErrorMessagesDistinct(e1: TransitionError, e2: TransitionError)
    ensures ErrorMessage(e1) == ErrorMessage(e2) <==> e1 == e2
  {
  }

  /**
   * The queries parse `end_date` or `paused_at` with `strptime`, which raises
   * `TypeError` when the field is `None`. Only the all-fields constructor or a
   * direct write to a field can produce such a state.
   */
  datatype QueryError = EndDateMissing | PausedAtMissing

  /** The fields of one subscription object. */
  datatype Fields = Fields(
    userName: string,
    plan: string,
    startDate: int,
    endDate: Option<int>,
    cancelled: bool,
    paused: bool,
    pausedAt: Option<int>,
    resumedAt: Option<int>)

  /**
   * `__init__`: every field as given, except a start date that is not given,
   * which becomes the current instant.
   */
  function Init(userName: string, plan: string, startDate: Option<int>, endDate: Option<int>,
                cancelled: bool, paused: bool, pausedAt: Option<int>, resumedAt: Option<int>,
                now: int): (s: Fields)
    ensures s.startDate == if startDate.Some? then startDate.value else now
    ensures s.userName == userName && s.plan == plan && s.endDate == endDate
    ensures s.cancelled == cancelled && s.paused == paused
    ensures s.pausedAt == pausedAt && s.resumedAt == resumedAt
  {
    Fields(userName, plan, if startDate.Some? then startDate.value else now,
           endDate, cancelled, paused, pausedAt, resumedAt)
  }

  /** A subscription created with only a user name and a plan at instant `now`. */
  function Fresh(userName: string, plan: string, now: int): Fields {
    Init(userName, plan, None, None, false, false, None, None, now)
  }

  /** The four guarded mutators, with the argument `change_plan` takes. */
  datatype Op = Cancel | ChangePlan(newPlan: string) | Pause | Resume

  /** One call of a mutator at instant `at`. */
  datatype Call = Call(op: Op, at: int)

  /** The guard checks of a mutator, in the order the source makes them. */
  function Guard(s: Fields, op: Op): (r: Outcome<TransitionError>)
    ensures s.cancelled && !op.Resume? ==> r.Fail?
    ensures op.Resume? ==> (r.Fail? <==> !s.paused)
    ensures op.Pause? && s.paused ==> r == Fail(AlreadyPaused)
    ensures !s.cancelled && !s.paused ==> (r.Fail? <==> op.Resume?)
    ensures op.Cancel? ==> (r.Fail? <==> s.cancelled) && (r.Fail? ==> r.error == AlreadyCancelled)
    ensures op.ChangePlan? ==> (r.Fail? <==> s.cancelled) && (r.Fail? ==> r.error == PlanChangeWhenCancelled)
    ensures op.Pause? && !s.paused ==> (r.Fail? <==> s.cancelled) && (r.Fail? ==> r.error == PauseWhenCancelled)
    ensures op.Resume? && r.Fail? ==> r.error == NotPaused
  {
    match op
    case Cancel => if s.cancelled then Fail(AlreadyCancelled) else Pass
    case ChangePlan(_) => if s.cancelled then Fail(PlanChangeWhenCancelled) else Pass
    case Pause =>
      if s.paused then Fail(AlreadyPaused)
      else if s.cancelled then Fail(PauseWhenCancelled)
      else Pass
    case Resume => if !s.paused then Fail(NotPaused) else Pass
  }

  /** The assignments a mutator makes once its guards have passed. */
  function Effect(s: Fields, op: Op, now: int): (r: Fields)
    ensures r.userName == s.userName && r.startDate == s.startDate
    ensures r.cancelled == (s.cancelled || op.Cancel?)
    ensures !op.ChangePlan? ==> r.plan == s.plan
    ensures !op.Cancel? ==> r.endDate == s.endDate
    ensures op.Cancel? ==> && r.endDate == Some(now) && r.cancelled
                           && r.paused == s.paused && r.pausedAt == s.pausedAt && r.resumedAt == s.resumedAt
    ensures op.ChangePlan? ==> && r.plan == op.newPlan && r.endDate == s.endDate && r.cancelled == s.cancelled
                               && r.paused == s.paused && r.pausedAt == s.pausedAt && r.resumedAt == s.resumedAt
    ensures op.Pause? ==> && r.pausedAt == Some(now) && r.paused && r.resumedAt == s.resumedAt
    ensures op.Resume? ==> && r.resumedAt == Some(now) && !r.paused && r.pausedAt == s.pausedAt
    ensures Consistent(s) ==> Consistent(r)
  {
    match op
    case Cancel => s.(endDate := Some(now), cancelled := true)
    case ChangePlan(p) => s.(plan := p)
    case Pause => s.(pausedAt := Some(now), paused := true)
    case Resume => s.(resumedAt := Some(now), paused := false)
  }

  /** A mutator call: the error it raises, or the new fields. */
  function Step(s: Fields, op: Op, now: int): (r: Result<Fields, TransitionError>)
    ensures r.Failure? <==> Guard(s, op).Fail?
    ensures r.Failure? ==> r.error == Guard(s, op).error
    ensures r.Success? ==> r.value == Effect(s, op, now)
  {
    match Guard(s, op)
    case Fail(e) => Failure(e)
    case Pass => Success(Effect(s, op, now))
  }

  /** The fields after a call; a call that raises leaves every field as it was. */
  function After(s: Fields, op: Op, now: int): (r: Fields)
    ensures Step(s, op, now).Failure? ==> r == s
    ensures Step(s, op, now).Success? ==> r == Step(s, op, now).value
  {
    match Step(s, op, now)
    case Failure(_) => s
    case Success(t) => t
  }

  /** The fields after a sequence of calls, each made whether or not the last one raised. */
  function Run(s: Fields, calls: seq<Call>): Fields
    decreases |calls|
  {
    if calls == [] then s else Run(After(s, calls[0].op, calls[0].at), calls[1..])
  }

  /**
   * The object invariant the mutators keep: a cancelled subscription has an
   * end date and a paused one has a pause instant.
   */
  predicate Consistent(s: Fields) {
    && (s.cancelled ==> s.endDate.Some?)
    && (s.paused ==> s.pausedAt.Some?)
  }

  lemma FreshIsConsistent(userName: string, plan: string, now: int)
    ensures Consistent(Fresh(userName, plan, now))
    ensures !Fresh(userName, plan, now).cancelled && !Fresh(userName, plan, now).paused
    ensures Fresh(userName, plan, now).endDate.None? && Fresh(userName, plan, now).pausedAt.None?
    ensures Fresh(userName, plan, now).resumedAt.None?
    ensures Fresh(userName, plan, now).startDate == now
  {
  }

  lemma StepKeepsConsistent(s: Fields, op: Op, now: int)
    requires Consistent(s)
    ensures Consistent(After(s, op, now))
  {
  }

  /** Every run from a consistent state ends in a consistent state. */
  lemma {:induction false} RunKeepsConsistent(s: Fields, calls: seq<Call>)
    requires Consistent(s)
    ensures Consistent(Run(s, calls))
    decreases |calls|
  {
    if calls != [] {
      StepKeepsConsistent(s, calls[0].op, calls[0].at);
      RunKeepsConsistent(After(s, calls[0].op, calls[0].at), calls[1..]);
    }
  }

  /** Every subscription reached from a fresh one through the mutators is consistent. */
  lemma ReachableIsConsistent(userName: string, plan: string, created: int, calls: seq<Call>)
    ensures Consistent(Run(Fresh(userName, plan, created), calls))
  {
    FreshIsConsistent(userName, plan, created);
    RunKeepsConsistent(Fresh(userName, plan, created), calls);
  }

  /** No mutator changes the user name or the start date. */
  lemma {:induction false} RunKeepsIdentity(s: Fields, calls: seq<Call>)
    ensures Run(s, calls).userName == s.userName
    ensures Run(s, calls).startDate == s.startDate
    decreases |calls|
  {
    if calls != [] {
      RunKeepsIdentity(After(s, calls[0].op, calls[0].at), calls[1..]);
    }
  }

  /**
   * Cancellation is absorbing: once cancelled, a subscription stays
   * cancelled, keeps its end date and its plan, and can no longer become
   * paused (it may still be resumed, and so become unpaused).
   */
  lemma {:induction false} CancelledIsFinal(s: Fields, calls: seq<Call>)
    requires s.cancelled
    ensures Run(s, calls).cancelled
    ensures Run(s, calls).endDate == s.endDate
    ensures Run(s, calls).plan == s.plan
    ensures Run(s, calls).pausedAt == s.pausedAt
    ensures Run(s, calls).paused ==> s.paused
    decreases |calls|
  {
    if calls != [] {
      CancelledIsFinal(After(s, calls[0].op, calls[0].at), calls[1..]);
    }
  }

  /**
   * Pausing and then cancelling reaches a state that is both paused and
   * cancelled, and resuming from there succeeds: `cancel` neither checks nor
   * clears `paused`, and `resume` does not consult `cancelled`.
   */
  lemma PausedAndCancelledReachable(userName: string, plan: string, t0: int, t1: int, t2: int, t3: int)
    ensures var s := Run(Fresh(userName, plan, t0), [Call(Pause, t1), Call(Cancel, t2)]);
            && s.paused && s.cancelled
            && s.pausedAt == Some(t1) && s.endDate == Some(t2)
            && Step(s, Resume, t3) == Success(s.(resumedAt := Some(t3), paused := false))
  {
    var s0 := Fresh(userName, plan, t0);
    var s1 := After(s0, Pause, t1);
    var s2 := After(s1, Cancel, t2);
    assert Run(s2, []) == s2;
    assert Run(s1, [Call(Cancel, t2)]) == s2;
    assert [Call(Pause, t1), Call(Cancel, t2)][1..] == [Call(Cancel, t2)];
  }

  // ---------------------------------------------------------------------------
  // Queries

  /** The end of the billed period: the end date once cancelled, otherwise now. */
  function EndBoundary(s: Fields, now: int): (r: Result<int, QueryError>)
    ensures r.Failure? <==> s.cancelled && s.endDate.None?
    ensures r.Failure? ==> r.error == EndDateMissing
    ensures r.Success? ==> r.value == if s.cancelled then s.endDate.value else now
  {
    if !s.cancelled then Success(now)
    else if s.endDate.None? then Failure(EndDateMissing)
    else Success(s.endDate.value)
  }

  /**
   * `calculate_active_duration`: whole days from the start date to the end
   * boundary, paused time included.
   */
  function ActiveDuration(s: Fields, now: int): (r: Result<int, QueryError>)
    ensures r.Failure? <==> s.cancelled && s.endDate.None?
    ensures r.Failure? ==> r.error == EndDateMissing
    ensures r.Success? ==> var e := if s.cancelled then s.endDate.value else now;
                           r.value * Day <= e - s.startDate < r.value * Day + Day
  {
    match EndBoundary(s, now)
    case Failure(err) => Failure(err)
    case Success(e) => Success(DaysBetween(s.startDate, e))
  }

  /**
   * `get_daily_rate`, in cents: premium 2.50, pro 5.00, and 1.00 for basic
   * and for every plan name it does not know.
   */
  function DailyRate(plan: string): (cents: nat)
    ensures plan == "premium" ==> cents == 250
    ensures plan == "pro" ==> cents == 500
    ensures plan != "premium" && plan != "pro" ==> cents == 100
  {
    if plan == "basic" then 100
    else if plan == "premium" then 250
    else if plan == "pro" then 500
    else 100
  }

  /**
   * `calculate_pro_rated_cost`, in cents: the active-duration days, less the
   * whole days from the start date to the pause instant while paused, times
   * the daily rate. The end date is parsed before the pause instant, so its
   * absence is the error reported when both are missing.
   */
  function ProRatedCost(s: Fields, now: int): (r: Result<int, QueryError>)
    ensures r.Failure? <==> (s.cancelled && s.endDate.None?) || (s.paused && s.pausedAt.None?)
    ensures r.Failure? ==>
              r.error == if s.cancelled && s.endDate.None? then EndDateMissing else PausedAtMissing
    ensures r.Success? && !s.paused ==>
              r.value == ActiveDuration(s, now).value * DailyRate(s.plan)
    ensures r.Success? && s.paused ==>
              r.value == (ActiveDuration(s, now).value - DaysBetween(s.startDate, s.pausedAt.value))
                         * DailyRate(s.plan)
  {
    match ActiveDuration(s, now)
    case Failure(err) => Failure(err)
    case Success(activeDays) =>
      if !s.paused then Success(activeDays * DailyRate(s.plan))
      else if s.pausedAt.None? then Failure(PausedAtMissing)
      else Success((activeDays - DaysBetween(s.startDate, s.pausedAt.value)) * DailyRate(s.plan))
  }

  /** The queries never fail on a consistent subscription. */
  lemma QueriesTotal(s: Fields, now: int)
    requires Consistent(s)
    ensures ActiveDuration(s, now).Success?
    ensures ProRatedCost(s, now).Success?
  {
  }

  /**
   * With the instants in order (start, then pause, then end boundary), the
   * cost is never negative and never more than the whole period's.
   */
  lemma CostBounds(s: Fields, now: int)
    requires ProRatedCost(s, now).Success?
    requires s.startDate <= EndBoundary(s, now).value
    requires s.paused ==> s.startDate <= s.pausedAt.value <= EndBoundary(s, now).value
    ensures 0 <= ProRatedCost(s, now).value <= ActiveDuration(s, now).value * DailyRate(s.plan)
  {
    var e := EndBoundary(s, now).value;
    var rate := DailyRate(s.plan);
    DaysMonotone(s.startDate, s.startDate, e);
    if s.paused {
      var p := s.pausedAt.value;
      DaysMonotone(s.startDate, s.startDate, p);
      DaysMonotone(s.startDate, p, e);
      var days := DaysBetween(s.startDate, e) - DaysBetween(s.startDate, p);
      assert 0 <= days <= DaysBetween(s.startDate, e);
      MulMonotone(days, DaysBetween(s.startDate, e), rate);
    } else {
      MulMonotone(0, DaysBetween(s.startDate, e), rate);
    }
  }

  lemma MulMonotone(a: int, b: int, k: nat)
    requires 0 <= a <= b
    ensures 0 <= a * k <= b * k
  {
  }

  // ---------------------------------------------------------------------------
  // The pause adjustment as written, and as its comments describe it

  /**
   * As written, the pause adjustment leaves the days SINCE the pause began
   * (give or take the day the two remainders may add up to), not the days
   * before it.
   */
  lemma PausedCostCountsDaysSincePause(s: Fields, now: int)
    requires ProRatedCost(s, now).Success? && s.paused
    ensures var e := EndBoundary(s, now).value;
            var charged := DaysBetween(s.startDate, e) - DaysBetween(s.startDate, s.pausedAt.value);
            && ProRatedCost(s, now).value == charged * DailyRate(s.plan)
            && (charged == DaysBetween(s.pausedAt.value, e) || charged == DaysBetween(s.pausedAt.value, e) + 1)
  {
    DaysSplit(s.startDate, s.pausedAt.value, EndBoundary(s, now).value);
  }

  /**
   * A subscription started ten days ago and paused two days ago on the basic
   * plan is charged for the two days it has been paused, 2.00, where the
   * eight active days before the pause would cost 8.00.
   */
  lemma PausedCostCounterexample(now: int)
    ensures var s := Fresh("Test User", "basic", now - 10 * Day).(paused := true, pausedAt := Some(now - 2 * Day));
            && ProRatedCost(s, now) == Success(200)
            && DaysBetween(s.startDate, s.pausedAt.value) * DailyRate(s.plan) == 800
  {
    WholeDays(now - 10 * Day, 10, 0);
    WholeDays(now - 10 * Day, 8, 0);
  }

  /**
   * The cost the pause adjustment is meant to produce: while paused, only
   * the whole days from the start date to the pause instant are charged.
   */
  function ProRatedCostBeforePause(s: Fields, now: int): (r: Result<int, QueryError>)
    ensures r.Failure? <==> (s.cancelled && s.endDate.None?) || (s.paused && s.pausedAt.None?)
    ensures r.Success? && !s.paused ==> r == ProRatedCost(s, now)
    ensures r.Success? && s.paused ==>
              r.value == DaysBetween(s.startDate, s.pausedAt.value) * DailyRate(s.plan)
  {
    match ActiveDuration(s, now)
    case Failure(err) => Failure(err)
    case Success(activeDays) =>
      if !s.paused then Success(activeDays * DailyRate(s.plan))
      else if s.pausedAt.None? then Failure(PausedAtMissing)
      else Success(DaysBetween(s.startDate, s.pausedAt.value) * DailyRate(s.plan))
  }

  /**
   * With the instants in order, the intended cost of a paused subscription
   * is never negative and never exceeds the cost of its whole period.
   */
  lemma CostBeforePauseBounds(s: Fields, now: int)
    requires ProRatedCostBeforePause(s, now).Success?
    requires s.paused ==> s.startDate <= s.pausedAt.value <= EndBoundary(s, now).value
    ensures s.paused ==>
              0 <= ProRatedCostBeforePause(s, now).value <= ActiveDuration(s, now).value * DailyRate(s.plan)
  {
    if s.paused {
      var p, e := s.pausedAt.value, EndBoundary(s, now).value;
      DaysMonotone(s.startDate, s.startDate, p);
      DaysMonotone(s.startDate, p, e);
      MulMonotone(DaysBetween(s.startDate, p), DaysBetween(s.startDate, e), DailyRate(s.plan));
    }
  }

  // ---------------------------------------------------------------------------
  // Scenarios of the unit tests, for every current instant

  /** Started ten days ago, not cancelled: ten days, and 10.00 on the basic plan. */
  lemma TenDaysActive(now: int)
    ensures var s := Fresh("Test User", "basic", now).(startDate := now - 10 * Day);
            && ActiveDuration(s, now) == Success(10)
            && ProRatedCost(s, now) == Success(1000)
  {
    WholeDays(now - 10 * Day, 10, 0);
  }

  /**
   * Started five days ago and cancelled now: five days, at every later
   * instant; started ten days ago and cancelled now: 10.00 on the basic plan.
   */
  lemma CancelFreezesDuration(now: int, later: int)
    ensures var s := After(Fresh("Test User", "basic", now).(startDate := now - 5 * Day), Cancel, now);
            ActiveDuration(s, later) == Success(5)
    ensures var s := After(Fresh("Test User", "basic", now).(startDate := now - 10 * Day), Cancel, now);
            ProRatedCost(s, later) == Success(1000)
  {
    WholeDays(now - 5 * Day, 5, 0);
    WholeDays(now - 10 * Day, 10, 0);
  }

  /**
   * Started ten days ago, paused, and the pause instant then set to five
   * days ago: 5.00 on the basic plan, under both readings of the adjustment.
   */
  lemma PausedFiveDaysAgo(now: int)
    ensures var s := After(Fresh("Test User", "basic", now).(startDate := now - 10 * Day), Pause, now)
                       .(pausedAt := Some(now - 5 * Day));
            && ProRatedCost(s, now) == Success(500)
            && ProRatedCostBeforePause(s, now) == Success(500)
  {
    WholeDays(now - 10 * Day, 10, 0);
    WholeDays(now - 10 * Day, 5, 0);
  }

  // ---------------------------------------------------------------------------
  // Status message

  /** How an optional timestamp reads inside an f-string. */
  function Stamp(t: Option<int>): (r: string)
    ensures t.None? ==> r == "None"
    ensures t.Some? ==> r == Decimal(t.value)
    ensures r == "None" || IsNumeral(r)
  {
    match t
    case None => "None"
    case Some(x) => Decimal(x)
  }

  /** `get_subscription_status`: cancelled before paused before active. */
  function StatusMessage(s: Fields): (m: string)
    ensures "Subscription is " <= m && |m| > 0 && m[|m| - 1] == '.'
  {
    if s.cancelled then "Subscription is cancelled as of " + Stamp(s.endDate) + "."
    else if s.paused then "Subscription is paused since " + Stamp(s.pausedAt) + "."
    else "Subscription is active since " + Decimal(s.startDate) + "."
  }

  /** The tail of a message, after its fixed words, has none of these letters. */
  lemma StampLacks(t: Option<int>, c: char)
    requires c in "vldpt"
    ensures c !in Stamp(t) + "."
  {
  }

  /** The one 'p' before the tail is that of "Subscription", followed by 't'. */
  lemma CancelledLacksPaused(tail: string)
    requires 'p' !in tail
    ensures !Occurs("paused", "Subscription is cancelled as of " + tail)
  {
    var b := "ption is cancelled as of " + tail;
    assert b[1..] == "tion is cancelled as of " + tail;
    assert "Subscription is cancelled as of " + tail == "Subscri" + b;
    NotOccursPastMismatch("paused", "Subscri", b);
  }

  lemma CancelledMessageWords(tail: string)
    requires 'v' !in tail && 'p' !in tail
    ensures Occurs("cancelled", "Subscription is cancelled as of " + tail)
    ensures !Occurs("paused", "Subscription is cancelled as of " + tail)
    ensures !Occurs("active", "Subscription is cancelled as of " + tail)
  {
    var m := "Subscription is cancelled as of " + tail;
    assert Occurs("cancelled", m) by {
      assert m == "Subscription is " + "cancelled" + (" as of " + tail);
      OccursBetween("cancelled", "Subscription is ", " as of " + tail);
    }
    assert !Occurs("paused", m) by {
      CancelledLacksPaused(tail);
    }
    assert !Occurs("active", m) by {
      NotOccursWithout("active", 4, m);
    }
  }

  lemma PausedMessageWords(tail: string)
    requires 'v' !in tail && 'l' !in tail
    ensures !Occurs("cancelled", "Subscription is paused since " + tail)
    ensures Occurs("paused", "Subscription is paused since " + tail)
    ensures !Occurs("active", "Subscription is paused since " + tail)
  {
    var m := "Subscription is paused since " + tail;
    assert !Occurs("cancelled", m) by {
      NotOccursWithout("cancelled", 5, m);
    }
    assert Occurs("paused", m) by {
      assert m == "Subscription is " + "paused" + (" since " + tail);
      OccursBetween("paused", "Subscription is ", " since " + tail);
    }
    assert !Occurs("active", m) by {
      NotOccursWithout("active", 4, m);
    }
  }

  lemma ActiveMessageWords(tail: string)
    requires 'l' !in tail && 'd' !in tail
    ensures !Occurs("cancelled", "Subscription is active since " + tail)
    ensures !Occurs("paused", "Subscription is active since " + tail)
    ensures Occurs("active", "Subscription is active since " + tail)
  {
    var m := "Subscription is active since " + tail;
    assert !Occurs("cancelled", m) by {
      NotOccursWithout("cancelled", 5, m);
    }
    assert !Occurs("paused", m) by {
      NotOccursWithout("paused", 5, m);
    }
    assert Occurs("active", m) by {
      assert m == "Subscription is " + "active" + (" since " + tail);
      OccursBetween("active", "Subscription is ", " since " + tail);
    }
  }

  /**
   * The message names exactly one state, with priority cancelled > paused >
   * active: each of the words the tests look for occurs iff that state is
   * the one reported.
   */
  lemma StatusNamesState(s: Fields)
    ensures Occurs("cancelled", StatusMessage(s)) <==> s.cancelled
    ensures Occurs("paused", StatusMessage(s)) <==> !s.cancelled && s.paused
    ensures Occurs("active", StatusMessage(s)) <==> !s.cancelled && !s.paused
  {
    if s.cancelled {
      var tail := Stamp(s.endDate) + ".";
      assert StatusMessage(s) == "Subscription is cancelled as of " + tail;
      StampLacks(s.endDate, 'v');
      StampLacks(s.endDate, 'p');
      CancelledMessageWords(tail);
    } else if s.paused {
      var tail := Stamp(s.pausedAt) + ".";
      assert StatusMessage(s) == "Subscription is paused since " + tail;
      StampLacks(s.pausedAt, 'v');
      StampLacks(s.pausedAt, 'l');
      PausedMessageWords(tail);
    } else {
      var tail := Decimal(s.startDate) + ".";
      assert StatusMessage(s) == "Subscription is active since " + tail;
      StampLacks(Some(s.startDate), 'l');
      StampLacks(Some(s.startDate), 'd');
      ActiveMessageWords(tail);
    }
  }

  /**
   * The message names the timestamp of the state it reports: the end date,
   * the pause instant or the start date.
   */
  lemma StatusNamesTimestamp(s: Fields)
    ensures s.cancelled ==> Occurs(Stamp(s.endDate), StatusMessage(s))
    ensures !s.cancelled && s.paused ==> Occurs(Stamp(s.pausedAt), StatusMessage(s))
    ensures !s.cancelled && !s.paused ==> Occurs(Decimal(s.startDate), StatusMessage(s))
  {
    if s.cancelled {
      OccursBetween(Stamp(s.endDate), "Subscription is cancelled as of ", ".");
    } else if s.paused {
      OccursBetween(Stamp(s.pausedAt), "Subscription is paused since ", ".");
    } else {
      OccursBetween(Decimal(s.startDate), "Subscription is active since ", ".");
    }
  }

  /** Different optional timestamps read differently. */
  lemma StampInjective(a: Option<int>, b: Option<int>)
    requires Stamp(a) == Stamp(b)
    ensures a == b
  {
    if a.Some? && b.Some? {
      DecimalRoundTrip(a.value);
      DecimalRoundTrip(b.value);
    }
  }

  /** The stamp between a fixed lead and the closing '.' is determined by the message. */
  lemma MiddleDetermined(lead: string, x: string, y: string)
    requires lead + x + "." == lead + y + "."
    ensures x == y
  {
    var m := lead + x + ".";
    assert m[|lead|..|m| - 1] == x;
    assert (lead + y + ".")[|lead|..|m| - 1] == y;
  }

  /**
   * The status message determines the reported state and its timestamp: two
   * subscriptions with the same message report the same state with the same
   * end date, pause instant or start date.
   */
  lemma StatusDeterminesTimestamp(s1: Fields, s2: Fields)
    requires StatusMessage(s1) == StatusMessage(s2)
    ensures s1.cancelled == s2.cancelled
    ensures !s1.cancelled ==> s1.paused == s2.paused
    ensures s1.cancelled ==> s1.endDate == s2.endDate
    ensures !s1.cancelled && s1.paused ==> s1.pausedAt == s2.pausedAt
    ensures !s1.cancelled && !s1.paused ==> s1.startDate == s2.startDate
  {
    StatusNamesState(s1);
    StatusNamesState(s2);
    if s1.cancelled {
      MiddleDetermined("Subscription is cancelled as of ", Stamp(s1.endDate), Stamp(s2.endDate));
      StampInjective(s1.endDate, s2.endDate);
    } else if s1.paused {
      MiddleDetermined("Subscription is paused since ", Stamp(s1.pausedAt), Stamp(s2.pausedAt));
      StampInjective(s1.pausedAt, s2.pausedAt);
    } else {
      MiddleDetermined("Subscription is active since ", Decimal(s1.startDate), Decimal(s2.startDate));
      StampInjective(Some(s1.startDate), Some(s2.startDate));
    }
  }

  /**
   * The status through the pause and resume cycle of the tests: active,
   * paused, active again, and cancelled at the end.
   */
  lemma StatusThroughLifecycle(userName: string, plan: string, t0: int, t1: int, t2: int, t3: int)
    ensures var s0 := Fresh(userName, plan, t0);
            var s1 := After(s0, Pause, t1);
            var s2 := After(s1, Resume, t2);
            var s3 := After(s2, Cancel, t3);
            && Occurs("active", StatusMessage(s0))
            && Occurs("paused", StatusMessage(s1))
            && Occurs("active", StatusMessage(s2))
            && Occurs("cancelled", StatusMessage(s3))
  {
    var s0 := Fresh(userName, plan, t0);
    var s1 := After(s0, Pause, t1);
    var s2 := After(s1, Resume, t2);
    var s3 := After(s2, Cancel, t3);
    StatusNamesState(s0);
    StatusNamesState(s1);
    StatusNamesState(s2);
    StatusNamesState(s3);
  }
}
