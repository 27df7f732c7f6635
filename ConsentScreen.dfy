/** The MyDigital ID consent screen: a countdown from 2 minutes 57 seconds,
    shown in words, and the YES button that confirms the verification. The
    SHOW QR CODE button has no handler. */
module ConsentScreen {
  import opened Strings

  const StartSeconds: nat := 177

  /** `formatTime(seconds)`: whole minutes and the remaining seconds, in
      words and unpadded. */
  function FormatTime(seconds: nat): string {
    NatToString(seconds / 60) + " MINUTES " + NatToString(seconds % 60) + " SECONDS"
  }

  /** The starting display. */
  lemma StartDisplay()
    ensures FormatTime(StartSeconds) == "2 MINUTES 57 SECONDS"
  {
    NatToStringSmall(2);
    NatToStringSmall(57);
  }

  /** Different remaining times are shown differently: the display determines
      both the minutes and the seconds. */
  lemma FormatTimeInjective(a: nat, b: nat)
    ensures FormatTime(a) == FormatTime(b) ==> a == b
  {
    if FormatTime(a) == FormatTime(b) {
      TwoNumbersSplit(NatToString(a / 60), NatToString(a % 60), NatToString(b / 60), NatToString(b % 60),
                      " MINUTES ", " SECONDS");
      NatToStringInjective(a / 60, b / 60);
      NatToStringInjective(a % 60, b % 60);
    }
  }

  /** Two numbers separated and followed by fixed texts that start with a
      non-digit can be read back. */
  lemma TwoNumbersSplit(m1: string, s1: string, m2: string, s2: string, mid: string, tail: string)
    requires forall i :: 0 <= i < |m1| ==> IsDigit(m1[i])
    requires forall i :: 0 <= i < |m2| ==> IsDigit(m2[i])
    requires forall i :: 0 <= i < |s1| ==> IsDigit(s1[i])
    requires forall i :: 0 <= i < |s2| ==> IsDigit(s2[i])
    requires |mid| > 0 && !IsDigit(mid[0]) && |tail| > 0 && !IsDigit(tail[0])
    requires m1 + mid + s1 + tail == m2 + mid + s2 + tail
    ensures m1 == m2 && s1 == s2
  {
    assert m1 + mid + s1 + tail == m1 + (mid + s1 + tail);
    assert m2 + mid + s2 + tail == m2 + (mid + s2 + tail);
    assert (mid + s1 + tail)[0] == mid[0] && (mid + s2 + tail)[0] == mid[0];
    DigitPrefixSplit(m1, mid + s1 + tail, m2, mid + s2 + tail);
    assert (mid + s1 + tail)[|mid|..] == s1 + tail;
    assert (mid + s2 + tail)[|mid|..] == s2 + tail;
    DigitPrefixSplit(s1, tail, s2, tail);
  }

  /** The screen. `confirmations` counts calls of `onConfirm`. */
  class Consent {
    var timeLeft: nat
    var intervalLive: bool
    var confirmations: nat

    ghost predicate Valid()
      reads this
    {
      timeLeft <= StartSeconds
    }

    /** Mounting starts the one-second interval. */
    constructor ()
      ensures Valid()
      ensures timeLeft == StartSeconds && intervalLive && confirmations == 0
    {
      timeLeft := StartSeconds;
      intervalLive := true;
      confirmations := 0;
    }

    /** One interval tick: one second less, never below zero. Reaching zero
        confirms nothing and cancels nothing. */
    method Tick()
      requires Valid() && intervalLive
      modifies this
      ensures Valid()
      ensures timeLeft == (if old(timeLeft) > 0 then old(timeLeft) - 1 else 0)
      ensures intervalLive && confirmations == old(confirmations)
    {
      timeLeft := if timeLeft > 0 then timeLeft - 1 else 0;
    }

    /** YES calls `onConfirm`, whatever the countdown shows. */
    method Yes()
      requires Valid()
      modifies this
      ensures Valid()
      ensures confirmations == old(confirmations) + 1
      ensures timeLeft == old(timeLeft) && intervalLive == old(intervalLive)
    {
      confirmations := confirmations + 1;
    }

    /** Unmounting clears the interval. */
    method Unmount()
      requires Valid()
      modifies this
      ensures Valid()
      ensures !intervalLive && timeLeft == old(timeLeft) && confirmations == old(confirmations)
    {
      intervalLive := false;
    }
  }

  /** After `n` ticks the countdown shows `max(177 - n, 0)` seconds. */
  method CountDown(n: nat) returns (c: Consent)
    ensures c.timeLeft == if n <= StartSeconds then StartSeconds - n else 0
    ensures c.confirmations == 0
  {
    c := new Consent();
    var i := 0;
    while i < n
      invariant 0 <= i <= n
      invariant c.Valid() && c.intervalLive && c.confirmations == 0
      invariant c.timeLeft == if i <= StartSeconds then StartSeconds - i else 0
    {
      c.Tick();
      i := i + 1;
    }
  }
}
