/**
 * The `Subscription` object of `subscription.py`: its fields, updated in
 * place by the four guarded mutators. Each mutator returns `Pass`, or the
 * `ValueError` it raises as `Fail(e)` with every field left as it was; its
 * contract states the new fields outright and ties them to `After`, so the
 * lemmas about runs in `Subscriptions` apply to the object.
 */
module SubscriptionClass {
  import opened Subscriptions

  class Subscription {
    var userName: string
    var plan: string
    var startDate: int
    var endDate: Option<int>
    var cancelled: bool
    var paused: bool
    var pausedAt: Option<int>
    var resumedAt: Option<int>

    /** The object's fields as a value, for the queries and the lemmas. */
    function State(): Fields
      reads this
    {
      Fields(userName, plan, startDate, endDate, cancelled, paused, pausedAt, resumedAt)
    }

    /** `__init__`: a start date that is not given becomes the current instant. */
    constructor (userName: string, plan: string, startDate: Option<int>, endDate: Option<int>,
                 cancelled: bool, paused: bool, pausedAt: Option<int>, resumedAt: Option<int>,
                 now: int)
      ensures State() == Init(userName, plan, startDate, endDate, cancelled, paused, pausedAt, resumedAt, now)
    {
      this.userName := userName;
      this.plan := plan;
      this.startDate := if startDate.Some? then startDate.value else now;
      this.endDate := endDate;
      this.cancelled := cancelled;
      this.paused := paused;
      this.pausedAt := pausedAt;
      this.resumedAt := resumedAt;
    }

    /**
     * `cancel`: fails iff already cancelled; otherwise stamps the end date
     * and sets `cancelled`, leaving `paused` and the pause fields alone.
     */
    method Cancel(now: int) returns (r: Outcome<TransitionError>)
      modifies this
      ensures r == if old(cancelled) then Fail(AlreadyCancelled) else Pass
      ensures r.Fail? ==> State() == old(State())
      ensures r.Pass? ==> cancelled && endDate == Some(now)
      ensures r.Pass? ==> && userName == old(userName) && plan == old(plan) && startDate == old(startDate)
                          && paused == old(paused) && pausedAt == old(pausedAt) && resumedAt == old(resumedAt)
      ensures Consistent(old(State())) ==> Consistent(State())
      ensures State() == After(old(State()), Op.Cancel, now)
    {
      if cancelled {
        return Fail(AlreadyCancelled);
      }
      endDate := Some(now);
      cancelled := true;
      r := Pass;
    }

    /**
     * `change_plan`: fails iff cancelled; otherwise takes any plan name. It
     * does not read the clock, so any instant stands for `now` in `After`.
     */
    method ChangePlan(newPlan: string) returns (r: Outcome<TransitionError>)
      modifies this
      ensures r == if old(cancelled) then Fail(PlanChangeWhenCancelled) else Pass
      ensures r.Fail? ==> State() == old(State())
      ensures r.Pass? ==> State() == old(State()).(plan := newPlan)
      ensures Consistent(old(State())) ==> Consistent(State())
      ensures State() == After(old(State()), Op.ChangePlan(newPlan), 0)
    {
      if cancelled {
        return Fail(PlanChangeWhenCancelled);
      }
      plan := newPlan;
      r := Pass;
    }

    /**
     * `pause`: fails if already paused, and otherwise if cancelled (so a
     * paused and cancelled subscription reports that it is already paused);
     * otherwise stamps the pause instant and sets `paused`.
     */
    method Pause(now: int) returns (r: Outcome<TransitionError>)
      modifies this
      ensures r == if old(paused) then Fail(AlreadyPaused)
                   else if old(cancelled) then Fail(PauseWhenCancelled)
                   else Pass
      ensures r.Fail? ==> State() == old(State())
      ensures r.Pass? ==> paused && pausedAt == Some(now)
      ensures r.Pass? ==> && userName == old(userName) && plan == old(plan) && startDate == old(startDate)
                          && endDate == old(endDate) && cancelled == old(cancelled) && resumedAt == old(resumedAt)
      ensures Consistent(old(State())) ==> Consistent(State())
      ensures State() == After(old(State()), Op.Pause, now)
    {
      if paused {
        return Fail(AlreadyPaused);
      }
      if cancelled {
        return Fail(PauseWhenCancelled);
      }
      pausedAt := Some(now);
      paused := true;
      r := Pass;
    }

    /**
     * `resume`: fails iff not paused, whether cancelled or not; otherwise
     * stamps the resume instant and clears `paused`, keeping the pause instant.
     */
    method Resume(now: int) returns (r: Outcome<TransitionError>)
      modifies this
      ensures r == if !old(paused) then Fail(NotPaused) else Pass
      ensures r.Fail? ==> State() == old(State())
      ensures r.Pass? ==> !paused && resumedAt == Some(now)
      ensures r.Pass? ==> && userName == old(userName) && plan == old(plan) && startDate == old(startDate)
                          && endDate == old(endDate) && cancelled == old(cancelled) && pausedAt == old(pausedAt)
      ensures Consistent(old(State())) ==> Consistent(State())
      ensures State() == After(old(State()), Op.Resume, now)
    {
      if !paused {
        return Fail(NotPaused);
      }
      resumedAt := Some(now);
      paused := false;
      r := Pass;
    }
  }

  /**
   * A client of the object's contracts, following the unit tests: create,
   * change plan, pause twice, resume twice, cancel, then try to pause,
   * change plan and cancel again.
   */
  method Lifecycle(now: int) {
    var sub := new Subscription("Test User", "basic", None, None, false, false, None, None, now);
    assert sub.plan == "basic" && !sub.cancelled && !sub.paused;
    assert sub.endDate == None && sub.pausedAt == None && sub.resumedAt == None;

    var r := sub.ChangePlan("premium");
    assert r == Pass && sub.plan == "premium";

    r := sub.Pause(now + 1);
    assert r == Pass && sub.paused && sub.pausedAt == Some(now + 1);
    r := sub.Pause(now + 2);
    assert r == Fail(AlreadyPaused);

    r := sub.Resume(now + 3);
    assert r == Pass && !sub.paused && sub.resumedAt == Some(now + 3) && sub.pausedAt == Some(now + 1);
    r := sub.Resume(now + 4);
    assert r == Fail(NotPaused);

    r := sub.Cancel(now + 5);
    assert r == Pass && sub.cancelled && sub.endDate == Some(now + 5);
    var before := sub.State();
    r := sub.Pause(now + 6);
    assert r == Fail(PauseWhenCancelled) && sub.State() == before;
    r := sub.ChangePlan("pro");
    assert r == Fail(PlanChangeWhenCancelled) && sub.State() == before && sub.plan == "premium";
    r := sub.Cancel(now + 7);
    assert r == Fail(AlreadyCancelled) && sub.State() == before && sub.endDate == Some(now + 5);
  }
}
