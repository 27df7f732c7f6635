/** The wallet detail overlay of one subsidy program: the payment flow (fuel
    pump input, biometric authorisation, the QR or barcode view with its
    expiry countdown), the information accordion, and the application form
    with its attached document. */
module WalletDetailView {
  import opened Wrappers
  import opened Strings
  import opened Types

  datatype FuelStep = Idle | Input | Processing | Success
  datatype PaymentMethod = Qr | Barcode

  /** What the overlay shows, in the order the component tests for it. */
  datatype Overlay = FuelInput | BiometricOverlay | PaymentView | Tabs

  const ExpirySeconds: nat := 120

  /** All the component's state at once, so that a handler's effect can be
      stated as an update of the previous state. */
  datatype Snapshot = Snapshot(
    initialAction: WalletAction,
    showPayment: bool,
    paymentMethod: PaymentMethod,
    authorized: bool,
    fuelStep: FuelStep,
    pumpNo: string,
    timeLeft: nat,
    expandedInfoItem: Option<string>,
    showDocSelector: bool,
    attachedDoc: Option<Doc>,
    formSubmitting: bool,
    formSuccess: bool,
    submitTimerPending: bool,
    verifierChains: nat,
    verifiedOnScreen: bool)

  /** The overlay precedence: the fuel input first, then the biometric
      verifier while payment is shown but not authorised, then the payment
      view, else the tabs. */
  function OverlayOf(fuelStep: FuelStep, showPayment: bool, authorized: bool): (o: Overlay)
    ensures o == FuelInput <==> fuelStep == Input
    ensures o == BiometricOverlay <==> fuelStep != Input && showPayment && !authorized
    ensures o == PaymentView <==> fuelStep != Input && showPayment && authorized
    ensures o == Tabs <==> fuelStep != Input && !showPayment
  {
    if fuelStep == Input then FuelInput
    else if showPayment && !authorized then BiometricOverlay
    else if showPayment && authorized then PaymentView
    else Tabs
  }

  /** The accordion's next open item: clicking the open item closes it,
      clicking another opens that one instead. */
  function ToggledItem(current: Option<string>, item: string): (next: Option<string>)
    ensures current == Some(item) ==> next.None?
    ensures current != Some(item) ==> next == Some(item)
  {
    if current == Some(item) then None else Some(item)
  }

  /** Clicking the same item twice from a closed accordion, or from that
      item open, restores the accordion. */
  lemma ToggleTwiceRestores(current: Option<string>, item: string)
    requires current.None? || current == Some(item)
    ensures ToggledItem(ToggledItem(current, item), item) == current
  {
  }

  /** The search sent to Google Maps for the program's nearby merchants. */
  function MapQuery(category: Category): (q: string)
    ensures category == Fuel ==> q == "Petrol Station near me"
    ensures category == Medical ==> q == "Klinik Panel Madani near me"
    ensures category != Fuel && category != Medical ==> q == "Lotus near me"
  {
    if category == Fuel then "Petrol Station near me"
    else if category == Medical then "Klinik Panel Madani near me"
    else "Lotus near me"
  }

  /** `Expires in m:ss`: whole minutes, a colon, and the seconds padded to two
      digits. */
  function ExpiryLabel(t: nat): string {
    NatToString(t / 60) + ":" + PadStart2(NatToString(t % 60))
  }

  /** The seconds are always exactly two digits, the tens digit first. */
  lemma ExpiryLabelDigits(t: nat)
    ensures ExpiryLabel(t) == NatToString(t / 60) + [':', DigitChar(t % 60 / 10), DigitChar(t % 60 % 10)]
  {
    var s := t % 60;
    NatToStringSmall(s);
    if s < 10 {
      assert PadStart2(NatToString(s)) == "0" + [DigitChar(s)];
      assert DigitChar(0) == '0';
    }
  }

  /** Different remaining times show different labels. */
  lemma ExpiryLabelInjective(a: nat, b: nat)
    ensures ExpiryLabel(a) == ExpiryLabel(b) ==> a == b
  {
    if ExpiryLabel(a) == ExpiryLabel(b) {
      ExpiryLabelDigits(a);
      ExpiryLabelDigits(b);
      var la, lb := ExpiryLabel(a), ExpiryLabel(b);
      var ma, mb := NatToString(a / 60), NatToString(b / 60);
      DigitPrefixSplit(ma, [':', DigitChar(a % 60 / 10), DigitChar(a % 60 % 10)], mb, [':', DigitChar(b % 60 / 10), DigitChar(b % 60 % 10)]);
      NatToStringInjective(a / 60, b / 60);
      assert la[|la| - 2] == DigitChar(a % 60 / 10) && lb[|lb| - 2] == DigitChar(b % 60 / 10);
      assert la[|la| - 1] == DigitChar(a % 60 % 10) && lb[|lb| - 1] == DigitChar(b % 60 % 10);
      DigitCharInjective(a % 60 / 10, b % 60 / 10);
      DigitCharInjective(a % 60 % 10, b % 60 % 10);
    }
  }

  lemma DigitCharInjective(x: nat, y: nat)
    requires x < 10 && y < 10
    ensures DigitChar(x) == DigitChar(y) ==> x == y
  {
  }

  /** The wallet overlay. `verifierChains` counts the completion callbacks the
      biometric verifier has scheduled and not yet delivered; the verifier
      never keeps the ids of its timeouts, so nothing cancels them.
      `verifierCleansUp` selects the corrected verifier, which keeps both
      timeout ids and clears them in a cleanup its effect returns, so leaving
      the screen cancels them. `verifiedOnScreen` records
      that the current authorisation came from a verification delivered while
      the verifier was on screen. */
  class Wallet {
    const category: Category
    const verifierCleansUp: bool
    var initialAction: WalletAction
    var showPayment: bool
    var paymentMethod: PaymentMethod
    var authorized: bool
    var fuelStep: FuelStep
    var pumpNo: string
    var timeLeft: nat
    var expandedInfoItem: Option<string>
    var showDocSelector: bool
    var attachedDoc: Option<Doc>
    var formSubmitting: bool
    var formSuccess: bool
    var submitTimerPending: bool
    var verifierChains: nat
    ghost var verifiedOnScreen: bool

    ghost function State(): Snapshot
      reads this
    {
      Snapshot(initialAction, showPayment, paymentMethod, authorized, fuelStep, pumpNo, timeLeft,
               expandedInfoItem, showDocSelector, attachedDoc, formSubmitting, formSuccess,
               submitTimerPending, verifierChains, verifiedOnScreen)
    }

    function Overlay(): Overlay
      reads this
    {
      OverlayOf(fuelStep, showPayment, authorized)
    }

    /** The countdown interval runs while the QR or barcode view is up. */
    predicate CountdownRunning()
      reads this
    {
      showPayment && authorized && category != Fuel
    }

    /** The submit button is enabled with a document attached and no submit
        in flight. */
    predicate SubmitEnabled()
      reads this
    {
      !formSubmitting && attachedDoc.Some?
    }

    ghost predicate Valid()
      reads this
    {
      timeLeft <= ExpirySeconds
      && submitTimerPending == formSubmitting
      && (formSubmitting ==> attachedDoc.Some?)
    }

    /** With the corrected verifier a completion is pending only while the
        verifier is on screen, so every authorisation was verified there. */
    ghost predicate Secure()
      reads this
    {
      (verifierChains > 0 ==> Overlay() == BiometricOverlay)
      && (authorized ==> verifiedOnScreen)
    }

    constructor (category: Category, initialAction: WalletAction, verifierCleansUp: bool)
      ensures Valid() && Secure()
      ensures this.category == category && this.verifierCleansUp == verifierCleansUp
      ensures showPayment == (initialAction == Payment)
      ensures State() == Snapshot(initialAction, initialAction == Payment, Qr, false, Idle, "", ExpirySeconds,
                                  None, false, None, false, false, false, 0, false)
    {
      this.category := category;
      this.verifierCleansUp := verifierCleansUp;
      this.initialAction := initialAction;
      showPayment := initialAction == Payment;
      paymentMethod := Qr;
      authorized := false;
      fuelStep := Idle;
      pumpNo := "";
      timeLeft := ExpirySeconds;
      expandedInfoItem := None;
      showDocSelector := false;
      attachedDoc := None;
      formSubmitting := false;
      formSuccess := false;
      submitTimerPending := false;
      verifierChains := 0;
      verifiedOnScreen := false;
    }

    /** The corrected verifier's cleanup: it clears the timeout ids it kept,
        so leaving the screen cancels its pending completions. The verifier
        as written keeps no ids and cancels nothing. */
    method LeaveVerifier()
      modifies this
      ensures verifierCleansUp && Overlay() != BiometricOverlay ==> State() == old(State()).(verifierChains := 0)
      ensures !(verifierCleansUp && Overlay() != BiometricOverlay) ==> State() == old(State())
    {
      if verifierCleansUp && Overlay() != BiometricOverlay {
        verifierChains := 0;
      }
    }

    /** The effect that follows the `initialAction` prop, re-run when the
        prop changes (its first run is the constructor's). Hiding the
        verifier this way unmounts it, so the corrected verifier drops its
        pending completions. */
    method SyncInitialAction(action: WalletAction)
      requires Valid()
      requires verifierCleansUp ==> Secure()
      requires action != initialAction
      modifies this
      ensures Valid() && (verifierCleansUp ==> Secure())
      ensures State() == old(State()).(initialAction := action, showPayment := action == Payment,
                                       verifierChains := if verifierCleansUp && Overlay() != BiometricOverlay then 0 else old(verifierChains))
      ensures showPayment == (action == Payment)
    {
      initialAction := action;
      showPayment := action == Payment;
      LeaveVerifier();
    }

    /** `handlePayClick(method)`: fuel programs open the pump input, the
        others go to the biometric verifier. */
    method PayClick(m: PaymentMethod)
      requires Valid() && Overlay() == Tabs
      requires verifierCleansUp ==> Secure()
      modifies this
      ensures Valid() && (verifierCleansUp ==> Secure())
      ensures category == Fuel ==> State() == old(State()).(paymentMethod := m, fuelStep := Input)
      ensures category != Fuel ==> State() == old(State()).(paymentMethod := m, showPayment := true)
    {
      paymentMethod := m;
      if category == Fuel {
        fuelStep := Input;
      } else {
        showPayment := true;
      }
    }

    /** Typing the pump number. */
    method EditPumpNo(v: string)
      requires Valid() && Overlay() == FuelInput
      modifies this
      ensures Valid()
      ensures State() == old(State()).(pumpNo := v)
    {
      pumpNo := v;
    }

    /** The pump input's close button. */
    method CancelFuelInput()
      requires Valid() && Overlay() == FuelInput
      requires verifierCleansUp ==> Secure()
      modifies this
      ensures Valid() && (verifierCleansUp ==> Secure())
      ensures State() == old(State()).(fuelStep := Idle)
    {
      fuelStep := Idle;
    }

    /** `handleFuelAuthorize`, behind the button disabled while the pump
        number is empty. */
    method FuelAuthorize()
      requires Valid() && Overlay() == FuelInput && pumpNo != ""
      requires verifierCleansUp ==> Secure()
      modifies this
      ensures Valid() && (verifierCleansUp ==> Secure())
      ensures State() == old(State()).(fuelStep := FuelStep.Processing, showPayment := true)
    {
      fuelStep := FuelStep.Processing;
      showPayment := true;
    }

    /** The verifier's clip became playable: its completion chain starts. */
    method VerifierStarts()
      requires Valid() && Overlay() == BiometricOverlay
      requires verifierCleansUp ==> Secure()
      modifies this
      ensures Valid() && (verifierCleansUp ==> Secure())
      ensures State() == old(State()).(verifierChains := old(verifierChains) + 1)
    {
      verifierChains := verifierChains + 1;
    }

    /** `handleAuthorized`, called by a pending verifier completion, whether
        or not the verifier is still on screen. */
    method VerificationCompletes()
      requires Valid() && verifierChains > 0
      requires verifierCleansUp ==> Secure()
      modifies this
      ensures Valid() && (verifierCleansUp ==> Secure())
      ensures old(Overlay()) == BiometricOverlay ==> verifiedOnScreen
      ensures authorized
      ensures !verifierCleansUp ==>
                State() == old(State()).(authorized := true, verifierChains := old(verifierChains) - 1,
                                         verifiedOnScreen := old(verifiedOnScreen) || old(Overlay()) == BiometricOverlay)
    {
      verifiedOnScreen := verifiedOnScreen || Overlay() == BiometricOverlay;
      verifierChains := verifierChains - 1;
      authorized := true;
      LeaveVerifier();
    }

    /** The verifier's close button: hides the payment flow and leaves the
        authorisation and any pending completion alone. */
    method BiometricClose()
      requires Valid() && Overlay() == BiometricOverlay
      requires verifierCleansUp ==> Secure()
      modifies this
      ensures Valid() && (verifierCleansUp ==> Secure())
      ensures !verifierCleansUp ==> State() == old(State()).(showPayment := false, fuelStep := Idle)
      ensures verifierCleansUp ==> State() == old(State()).(showPayment := false, fuelStep := Idle, verifierChains := 0)
    {
      showPayment := false;
      fuelStep := Idle;
      LeaveVerifier();
    }

    /** `handleClosePayment`: back to the tabs with the authorisation dropped
        and the countdown reset. */
    method ClosePayment()
      requires Valid() && Overlay() == PaymentView
      requires verifierCleansUp ==> Secure()
      modifies this
      ensures Valid() && (verifierCleansUp ==> Secure())
      ensures State() == old(State()).(showPayment := false, authorized := false, fuelStep := Idle,
                                       timeLeft := ExpirySeconds, verifiedOnScreen := false)
      ensures Overlay() == Tabs
    {
      showPayment := false;
      authorized := false;
      fuelStep := Idle;
      timeLeft := ExpirySeconds;
      verifiedOnScreen := false;
    }

    /** One second of the expiry countdown, saturating at zero. */
    method Tick()
      requires Valid() && CountdownRunning()
      modifies this
      ensures Valid()
      ensures State() == old(State()).(timeLeft := if old(timeLeft) > 0 then old(timeLeft) - 1 else 0)
    {
      timeLeft := if timeLeft > 0 then timeLeft - 1 else 0;
    }

    /** `toggleInfoItem(item)`. */
    method ToggleInfoItem(item: string)
      requires Valid()
      modifies this
      ensures Valid()
      ensures State() == old(State()).(expandedInfoItem := ToggledItem(old(expandedInfoItem), item))
    {
      expandedInfoItem := if expandedInfoItem == Some(item) then None else Some(item);
    }

    method OpenDocSelector()
      requires Valid()
      modifies this
      ensures Valid()
      ensures State() == old(State()).(showDocSelector := true)
    {
      showDocSelector := true;
    }

    method CloseDocSelector()
      requires Valid()
      modifies this
      ensures Valid()
      ensures State() == old(State()).(showDocSelector := false)
    {
      showDocSelector := false;
    }

    /** `handleSelectDoc(doc)`: attaches the document and closes the sheet. */
    method SelectDoc(doc: Doc)
      requires Valid() && showDocSelector
      modifies this
      ensures Valid()
      ensures State() == old(State()).(attachedDoc := Some(doc), showDocSelector := false)
    {
      attachedDoc := Some(doc);
      showDocSelector := false;
    }

    /** `handleFormSubmit`, behind the enabled submit button. */
    method FormSubmit()
      requires Valid() && SubmitEnabled() && !formSuccess
      modifies this
      ensures Valid()
      ensures State() == old(State()).(formSubmitting := true, submitTimerPending := true)
    {
      formSubmitting := true;
      submitTimerPending := true;
    }

    /** The submit timer, 1500ms later. */
    method SubmitTimerFires()
      requires Valid() && submitTimerPending
      modifies this
      ensures Valid()
      ensures State() == old(State()).(formSubmitting := false, formSuccess := true, submitTimerPending := false)
    {
      formSubmitting := false;
      formSuccess := true;
      submitTimerPending := false;
    }

    /** The success screen's way back to the form. */
    method BackToForm()
      requires Valid() && formSuccess
      modifies this
      ensures Valid()
      ensures State() == old(State()).(formSuccess := false)
    {
      formSuccess := false;
    }
  }

  /** With the verifier as written, a verification started before the
      verifier was closed still authorises the wallet, and the next Pay click
      goes straight to the QR view without a verification on screen. */
  method LatePaymentWithoutBiometric() returns (w: Wallet)
    ensures w.Overlay() == PaymentView && !w.verifiedOnScreen
  {
    w := new Wallet(Groceries, View, false);
    w.PayClick(Qr);
    w.VerifierStarts();
    w.BiometricClose();
    w.VerificationCompletes();
    w.PayClick(Qr);
  }

  /** With the corrected verifier the same clicks leave nothing pending, and
      the Pay click is met by the verifier again. */
  method ClosedVerifierCannotAuthorize() returns (w: Wallet)
    ensures w.Overlay() == BiometricOverlay && !w.authorized && w.verifierChains == 0
  {
    w := new Wallet(Groceries, View, true);
    w.PayClick(Qr);
    w.VerifierStarts();
    w.BiometricClose();
    w.PayClick(Qr);
  }
}
