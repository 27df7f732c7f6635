/** The two splash screens of the sign-in flow: the MyDigital ID redirect
    screen and the MyMadani launch screen shown on return. Both fade in after
    100ms and call `onComplete` once after a fixed delay (3000ms and 2500ms);
    unmounting clears both timers. */
module SplashScreen {
  const EnterMs: nat := 100
  const RedirectMs: nat := 3000
  const LaunchMs: nat := 2500

  /** A splash screen; `now` is the time since it mounted, `completeAfter`
      its completion delay, and `completions` counts calls of `onComplete`. */
  class Splash {
    const completeAfter: nat
    var now: nat
    var mounted: bool
    var isVisible: bool
    var enterPending: bool
    var completePending: bool
    var completions: nat

    /** While mounted, each timer is pending exactly until its deadline, the
        screen is visible from the enter deadline on, and `onComplete` has
        been called once from the completion deadline on. An unmounted screen
        has nothing pending and called `onComplete` at most once. */
    ghost predicate Valid()
      reads this
    {
      completions <= 1
      && (mounted ==>
            (enterPending <==> now < EnterMs)
            && (isVisible <==> now >= EnterMs)
            && (completePending <==> now < completeAfter)
            && (completions == 1 <==> now >= completeAfter))
      && (!mounted ==> !enterPending && !completePending)
    }

    /** Mounting: hidden, both timers started. */
    constructor (completeAfter: nat)
      requires completeAfter > 0
      ensures Valid()
      ensures this.completeAfter == completeAfter
      ensures now == 0 && mounted && !isVisible && enterPending && completePending && completions == 0
    {
      this.completeAfter := completeAfter;
      now := 0;
      mounted := true;
      isVisible := false;
      enterPending := true;
      completePending := true;
      completions := 0;
    }

    /** `ms` milliseconds pass; each pending timer whose deadline is reached
        fires once. */
    method Elapse(ms: nat)
      requires Valid()
      modifies this
      ensures Valid()
      ensures now == old(now) + ms && mounted == old(mounted)
      ensures mounted ==> isVisible == (now >= EnterMs)
      ensures mounted ==> completions == (if now >= completeAfter then 1 else 0)
      ensures !mounted ==> isVisible == old(isVisible) && completions == old(completions)
      ensures completions <= 1
    {
      now := now + ms;
      if enterPending && now >= EnterMs {
        enterPending := false;
        isVisible := true;
      }
      if completePending && now >= completeAfter {
        completePending := false;
        completions := completions + 1;
      }
    }

    /** The effect's cleanup clears both timers. */
    method Unmount()
      requires Valid()
      modifies this
      ensures Valid()
      ensures !mounted && !enterPending && !completePending
      ensures now == old(now) && isVisible == old(isVisible) && completions == old(completions)
    {
      mounted := false;
      enterPending := false;
      completePending := false;
    }
  }

  /** The redirect screen, left mounted for three seconds, has called
      `onComplete` exactly once and is visible. */
  method RedirectCompletesOnce() returns (s: Splash)
    ensures s.completions == 1 && s.isVisible && !s.completePending
  {
    s := new Splash(RedirectMs);
    s.Elapse(EnterMs);
    s.Elapse(RedirectMs - EnterMs);
    s.Elapse(10000);
  }

  /** The launch screen unmounted before its delay never completes, however
      long one waits afterwards. */
  method LaunchUnmountedEarly(early: nat, later: nat) returns (s: Splash)
    requires early < LaunchMs
    ensures s.completions == 0
  {
    s := new Splash(LaunchMs);
    s.Elapse(early);
    s.Unmount();
    s.Elapse(later);
  }
}
