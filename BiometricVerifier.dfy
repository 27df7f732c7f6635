/** The face-scan screen used for sign-in and for payment authorisation. It
    picks one of two clips at random, waits for the clip to be playable, and
    then runs two timers: 1000ms to start the scan and 2500ms more to report
    success through `onVerifyComplete`. The ids of those two timeouts are
    never kept, so nothing can ever clear them. The only cleanup the code
    builds, which removes the `canplay` listener, is created inside
    `startVideo` and thrown away, so the effect returns none. */
module BiometricVerifier {
  const Videos: seq<string> := ["/authenticate1.mp4", "/authenticate2.mp4"]

  const Initializing: string := "Initializing Camera..."
  const Align: string := "Align your face within the circle"
  const Verifying: string := "Verifying Identity..."

  /** `videos[Math.floor(Math.random() * videos.length)]`, for a draw `r` in
      [0, 1). */
  function ClipFor(r: real): (clip: string)
    requires 0.0 <= r < 1.0
    ensures clip in Videos
    ensures clip == Videos[0] <==> r < 0.5
  {
    var k := (r * 2.0).Floor;
    assert 0 <= k < 2;
    Videos[k]
  }

  /** The heading. */
  function Title(isPayment: bool): (t: string)
    ensures t == "Authorize Payment" <==> isPayment
    ensures !isPayment ==> t == "Identity Verification"
  {
    if isPayment then "Authorize Payment" else "Identity Verification"
  }

  /** The dialog's accessible name. */
  function AriaLabel(isPayment: bool): (t: string)
    ensures t == "Payment Authorization" <==> isPayment
    ensures !isPayment ==> t == "Identity Verification"
  {
    if isPayment then "Payment Authorization" else "Identity Verification"
  }

  /** The verifier. `listeners` counts registered `canplay` listeners not yet
      fired, `alignTimers` and `completeTimers` the pending 1000ms and 2500ms
      timers, and `completions` the calls of `onVerifyComplete`. Every
      registration of a listener starts one chain listener, align timer,
      completion timer, completion. */
  class Verifier {
    const isPayment: bool
    var mounted: bool
    var selectedVideo: string
    var scanning: bool
    var statusText: string
    var listeners: nat
    var alignTimers: nat
    var completeTimers: nat
    var completions: nat
    ghost var registrations: nat
    ghost var alignsFired: nat

    ghost predicate Valid()
      reads this
    {
      listeners + alignTimers + completeTimers + completions == registrations
      && completeTimers + completions == alignsFired
      && (selectedVideo == "" || selectedVideo in Videos)
      && (selectedVideo == "" ==> registrations == 0 && statusText == Initializing && !scanning)
      && (statusText == Initializing || statusText == Align || statusText == Verifying)
      && (mounted && alignsFired > 0 ==> scanning)
      && (scanning ==> alignsFired > 0)
    }

    /** The first render: no clip yet, so the video effect returns early. */
    constructor (isPayment: bool)
      ensures Valid()
      ensures this.isPayment == isPayment
      ensures mounted && selectedVideo == "" && !scanning && statusText == Initializing
      ensures listeners == 0 && alignTimers == 0 && completeTimers == 0 && completions == 0
    {
      this.isPayment := isPayment;
      mounted := true;
      selectedVideo := "";
      scanning := false;
      statusText := Initializing;
      listeners := 0;
      alignTimers := 0;
      completeTimers := 0;
      completions := 0;
      registrations := 0;
      alignsFired := 0;
    }

    /** The mount effect picks a clip; the video effect then runs again with
        the clip set and the video element attached, and registers one
        listener. */
    method SelectClip(r: real)
      requires Valid() && mounted && selectedVideo == ""
      requires 0.0 <= r < 1.0
      modifies this
      ensures Valid() && mounted
      ensures selectedVideo == ClipFor(r)
      ensures listeners == old(listeners) + 1
      ensures statusText == old(statusText) && scanning == old(scanning)
      ensures alignTimers == old(alignTimers) && completeTimers == old(completeTimers) && completions == old(completions)
    {
      selectedVideo := ClipFor(r);
      listeners := listeners + 1;
      registrations := registrations + 1;
    }

    /** The video effect runs again because `onVerifyComplete` is a new
        function: with a clip chosen it registers another listener, and the
        earlier one stays registered. */
    method VideoEffectRerun()
      requires Valid() && mounted
      modifies this
      ensures Valid() && mounted
      ensures listeners == old(listeners) + (if selectedVideo != "" then 1 else 0)
      ensures selectedVideo == old(selectedVideo) && statusText == old(statusText) && scanning == old(scanning)
      ensures alignTimers == old(alignTimers) && completeTimers == old(completeTimers) && completions == old(completions)
    {
      if selectedVideo != "" {
        listeners := listeners + 1;
        registrations := registrations + 1;
      }
    }

    /** The clip becomes playable: every registered listener fires once,
        shows the alignment prompt and starts its 1000ms timer. */
    method CanPlay()
      requires Valid() && mounted && listeners > 0
      modifies this
      ensures Valid() && mounted
      ensures listeners == 0 && alignTimers == old(alignTimers) + old(listeners)
      ensures statusText == Align
      ensures selectedVideo == old(selectedVideo) && scanning == old(scanning)
      ensures completeTimers == old(completeTimers) && completions == old(completions)
    {
      alignTimers := alignTimers + listeners;
      listeners := 0;
      statusText := Align;
    }

    /** A 1000ms timer fires: the scan starts (a state update that has no
        effect once unmounted) and the 2500ms timer is started regardless. */
    method AlignTimerFires()
      requires Valid() && alignTimers > 0
      modifies this
      ensures Valid() && mounted == old(mounted)
      ensures alignTimers == old(alignTimers) - 1 && completeTimers == old(completeTimers) + 1
      ensures mounted ==> scanning && statusText == Verifying
      ensures !mounted ==> scanning == old(scanning) && statusText == old(statusText)
      ensures selectedVideo == old(selectedVideo) && listeners == old(listeners) && completions == old(completions)
    {
      alignTimers := alignTimers - 1;
      alignsFired := alignsFired + 1;
      if mounted {
        scanning := true;
        statusText := Verifying;
      }
      completeTimers := completeTimers + 1;
    }

    /** A 2500ms timer fires and calls `onVerifyComplete`, whether or not the
        verifier is still on screen. */
    method CompleteTimerFires()
      requires Valid() && completeTimers > 0
      modifies this
      ensures Valid() && mounted == old(mounted)
      ensures completeTimers == old(completeTimers) - 1 && completions == old(completions) + 1
      ensures selectedVideo == old(selectedVideo) && scanning == old(scanning) && statusText == old(statusText)
      ensures listeners == old(listeners) && alignTimers == old(alignTimers)
    {
      completeTimers := completeTimers - 1;
      completions := completions + 1;
    }

    /** Unmounting cancels nothing: the effect returns no cleanup, and no
        timeout id was kept that one could clear. */
    method Unmount()
      requires Valid()
      modifies this
      ensures Valid() && !mounted
      ensures alignTimers == old(alignTimers) && completeTimers == old(completeTimers) && completions == old(completions)
      ensures selectedVideo == old(selectedVideo) && scanning == old(scanning) && statusText == old(statusText)
      ensures listeners == old(listeners)
    {
      mounted := false;
    }

    /** Completions never outnumber the listener registrations. */
    lemma CompletionsBounded()
      requires Valid()
      ensures completions <= registrations
      ensures completions <= alignsFired
    {
    }
  }

  /** The sign-in run: clip chosen, clip playable, both timers fire. The
      verifier reports success once, with the scan shown. */
  method VerifiesOnce(r: real) returns (v: Verifier)
    requires 0.0 <= r < 1.0
    ensures v.completions == 1 && v.scanning && v.statusText == Verifying
    ensures v.selectedVideo in Videos
    ensures v.listeners == 0 && v.alignTimers == 0 && v.completeTimers == 0
  {
    v := new Verifier(false);
    v.SelectClip(r);
    v.CanPlay();
    v.AlignTimerFires();
    v.CompleteTimerFires();
  }

  /** Closing the verifier after the clip became playable does not stop it:
      both timers still fire, and `onVerifyComplete` is still called. */
  method CompletesAfterUnmount(r: real) returns (v: Verifier)
    requires 0.0 <= r < 1.0
    ensures !v.mounted && v.completions == 1 && !v.scanning
  {
    v := new Verifier(true);
    v.SelectClip(r);
    v.CanPlay();
    v.Unmount();
    v.AlignTimerFires();
    v.CompleteTimerFires();
  }

  /** A re-run of the video effect before the clip is playable leaves two
      listeners, and the verifier reports success twice. */
  method RerunCompletesTwice(r: real) returns (v: Verifier)
    requires 0.0 <= r < 1.0
    ensures v.completions == 2
  {
    v := new Verifier(false);
    v.SelectClip(r);
    v.VideoEffectRerun();
    v.CanPlay();
    v.AlignTimerFires();
    v.AlignTimerFires();
    v.CompleteTimerFires();
    v.CompleteTimerFires();
  }
}
