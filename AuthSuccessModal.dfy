/** The "Congratulations" modal shown after the biometric step: a three
    second countdown that dismisses the modal by itself, and an OK button
    that dismisses it at once. */
module AuthSuccessModal {
  import opened Strings

  const StartCount: nat := 3

  /** The OK button's caption, `OK (n)`. */
  function OkLabel(count: nat): (s: string)
    ensures count < 10 ==> s == "OK (" + [DigitChar(count)] + ")"
    ensures |s| > 6 <==> count >= 10
  {
    NatToStringSmallOrLong(count);
    "OK (" + NatToString(count) + ")"
  }

  lemma NatToStringSmallOrLong(n: nat)
    ensures n < 10 ==> NatToString(n) == [DigitChar(n)]
    ensures n >= 10 ==> |NatToString(n)| > 1
  {
    if n >= 10 {
      assert NatToString(n) == NatToString(n / 10) + [DigitChar(n % 10)];
    }
  }

  /** Different counts show different captions. */
  lemma OkLabelInjective(a: nat, b: nat)
    ensures OkLabel(a) == OkLabel(b) ==> a == b
  {
    if OkLabel(a) == OkLabel(b) {
      var la, lb := OkLabel(a), OkLabel(b);
      assert NatToString(a) == la[4..|la| - 1];
      assert NatToString(b) == lb[4..|lb| - 1];
      NatToStringInjective(a, b);
    }
  }

  /** The modal. `ticks` counts the one-second timers that have fired;
      `dismissals` counts calls of `onDismiss`, from the countdown or the OK
      button. */
  class SuccessModal {
    var count: nat
    var timerPending: bool
    var mounted: bool
    var autoDismissed: bool
    var dismissals: nat
    ghost var ticks: nat

    /** While mounted, exactly one timer is pending until the count reaches
        zero, and the countdown has dismissed the modal exactly when it has. */
    ghost predicate Valid()
      reads this
    {
      count + ticks == StartCount
      && (timerPending ==> mounted)
      && (mounted ==> (timerPending <==> count > 0))
      && (autoDismissed <==> count == 0)
      && (autoDismissed ==> dismissals >= 1)
    }

    /** Mounting renders `OK (3)` and runs the effect, which starts the
        first timer. */
    constructor ()
      ensures Valid()
      ensures count == StartCount && timerPending && mounted && !autoDismissed && dismissals == 0
    {
      count := StartCount;
      timerPending := true;
      mounted := true;
      autoDismissed := false;
      dismissals := 0;
      ticks := 0;
    }

    /** A timer fires: the count drops by one and the effect runs again,
        starting the next timer or, at zero, dismissing the modal. */
    method TimerFires()
      requires Valid() && timerPending
      modifies this
      ensures Valid()
      ensures count == old(count) - 1 && mounted
      ensures timerPending == (count > 0)
      ensures dismissals == old(dismissals) + (if count == 0 then 1 else 0)
    {
      count := count - 1;
      ticks := ticks + 1;
      if count > 0 {
        timerPending := true;
      } else {
        timerPending := false;
        autoDismissed := true;
        dismissals := dismissals + 1;
      }
    }

    /** The OK button calls `onDismiss` directly; the countdown goes on. */
    method OkClick()
      requires Valid() && mounted
      modifies this
      ensures Valid()
      ensures dismissals == old(dismissals) + 1
      ensures count == old(count) && timerPending == old(timerPending) && mounted
    {
      dismissals := dismissals + 1;
    }

    /** The parent re-renders with a new `onDismiss` callback, so the effect
        re-runs: the pending timer is cleared and a fresh one started while
        the count is positive, and at zero the callback is called again. */
    method EffectRerun()
      requires Valid() && mounted
      modifies this
      ensures Valid()
      ensures count == old(count) && mounted && timerPending == (count > 0)
      ensures dismissals == old(dismissals) + (if count == 0 then 1 else 0)
    {
      if count > 0 {
        timerPending := true;
      } else {
        dismissals := dismissals + 1;
      }
    }

    /** Unmounting runs the effect's cleanup, clearing the pending timer. */
    method Unmount()
      requires Valid()
      modifies this
      ensures Valid()
      ensures !mounted && !timerPending
      ensures count == old(count) && dismissals == old(dismissals)
    {
      mounted := false;
      timerPending := false;
    }
  }

  /** Left alone, the modal dismisses itself exactly once, three timers after
      it mounts, and then has nothing pending. */
  method DismissesAfterThreeSeconds() returns (m: SuccessModal)
    ensures m.dismissals == 1 && m.count == 0 && !m.timerPending && m.mounted
  {
    m := new SuccessModal();
    m.TimerFires();
    m.TimerFires();
    m.TimerFires();
  }
}
