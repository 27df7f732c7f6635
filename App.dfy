/** The application shell: the eight-step sign-in sequence, the choice of
    which screen a step renders, the program opened in the wallet overlay, and
    the home dashboard's derived figures (total balance, counts, search). */
module App {
  import opened Wrappers
  import opened Seqs
  import opened Strings
  import opened Types
  import SubsidyCard

  // ---------------------------------------------------------------------------
  // Sign-in sequence

  datatype AuthStep =
    | Login | DigitalIdConsent | RedirectingToDigitalId | DigitalIdSendConsent
    | Biometric | AuthSuccess | ReturnToApp | Authenticated

  /** What the application renders. */
  datatype Screen =
    | LoginScreen | ConsentScreen | RedirectScreen | SendConsentScreen
    | BiometricScreen | SuccessModal | LaunchScreen | MainApp

  /** The sign-in handlers, one per callback the auth screens receive. */
  datatype AuthEvent =
    | LoginPressed | ConsentConfirmed | RedirectComplete | SendConsentConfirmed
    | SendConsentCancelled | BiometricSuccess | SuccessDismissed | ReturnComplete

  /** The screen of each step: the chain of `if (authStep === …)` returns,
      falling through to the main application. */
  function ScreenFor(step: AuthStep): (s: Screen)
    ensures s == MainApp <==> step == Authenticated
  {
    match step
    case Login => LoginScreen
    case DigitalIdConsent => ConsentScreen
    case RedirectingToDigitalId => RedirectScreen
    case DigitalIdSendConsent => SendConsentScreen
    case Biometric => BiometricScreen
    case AuthSuccess => SuccessModal
    case ReturnToApp => LaunchScreen
    case Authenticated => MainApp
  }

  /** The handlers passed to each screen as callbacks. */
  function Callbacks(screen: Screen): (c: set<AuthEvent>)
    ensures c == {} <==> screen == MainApp
    ensures SendConsentCancelled in c <==> screen == SendConsentScreen
  {
    match screen
    case LoginScreen => {LoginPressed}
    case ConsentScreen => {ConsentConfirmed}
    case RedirectScreen => {RedirectComplete}
    case SendConsentScreen => {SendConsentConfirmed, SendConsentCancelled}
    case BiometricScreen => {BiometricSuccess}
    case SuccessModal => {SuccessDismissed}
    case LaunchScreen => {ReturnComplete}
    case MainApp => {}
  }

  /** The step each handler sets, whatever the current step. */
  function Handler(ev: AuthEvent): (s: AuthStep)
    ensures s == Login <==> ev == SendConsentCancelled
    ensures s == Authenticated <==> ev == ReturnComplete
  {
    match ev
    case LoginPressed => DigitalIdConsent
    case ConsentConfirmed => RedirectingToDigitalId
    case RedirectComplete => DigitalIdSendConsent
    case SendConsentConfirmed => Biometric
    case SendConsentCancelled => Login
    case BiometricSuccess => AuthSuccess
    case SuccessDismissed => ReturnToApp
    case ReturnComplete => Authenticated
  }

  /** An event reaches its handler only if the rendered screen holds that
      callback; any other event has no effect. */
  function Deliver(step: AuthStep, ev: AuthEvent): (r: AuthStep)
    ensures r != step ==> ev in Callbacks(ScreenFor(step)) && r == Handler(ev)
    ensures step == Authenticated ==> r == Authenticated
  {
    if ev in Callbacks(ScreenFor(step)) then Handler(ev) else step
  }

  function Run(step: AuthStep, evs: seq<AuthEvent>): AuthStep
    decreases |evs|
  {
    if evs == [] then step else Run(Deliver(step, evs[0]), evs[1..])
  }

  /** The steps in the order the happy path visits them. */
  function Rank(step: AuthStep): (k: nat)
    ensures k <= 7
  {
    match step
    case Login => 0
    case DigitalIdConsent => 1
    case RedirectingToDigitalId => 2
    case DigitalIdSendConsent => 3
    case Biometric => 4
    case AuthSuccess => 5
    case ReturnToApp => 6
    case Authenticated => 7
  }

  const HappyPath: seq<AuthEvent> :=
    [LoginPressed, ConsentConfirmed, RedirectComplete, SendConsentConfirmed,
     BiometricSuccess, SuccessDismissed, ReturnComplete]

  /** The seven confirmations take a fresh session to the main application. */
  lemma HappyPathAuthenticates()
    ensures Run(Login, HappyPath) == Authenticated
  {
  }

  /** Declining to send the identity data returns to the login screen. */
  lemma DeclineReturnsToLogin()
    ensures Deliver(DigitalIdSendConsent, SendConsentCancelled) == Login
    ensures Run(Login, HappyPath[..3] + [SendConsentCancelled]) == Login
  {
    var evs := HappyPath[..3] + [SendConsentCancelled];
    assert evs == [LoginPressed, ConsentConfirmed, RedirectComplete, SendConsentCancelled];
    assert Run(Login, evs) == Run(DigitalIdConsent, evs[1..]);
    assert Run(DigitalIdConsent, evs[1..]) == Run(RedirectingToDigitalId, evs[2..]);
    assert Run(RedirectingToDigitalId, evs[2..]) == Run(DigitalIdSendConsent, evs[3..]);
    assert Run(DigitalIdSendConsent, evs[3..]) == Run(Login, []);
  }

  /** Each step renders its own screen, and only the authenticated step
      renders the main application. */
  lemma OneScreenPerStep(a: AuthStep, b: AuthStep)
    ensures ScreenFor(a) == ScreenFor(b) ==> a == b
    ensures ScreenFor(a) == MainApp <==> a == Authenticated
  {
  }

  /** One event moves one step forward along the happy path, goes back to the
      login step (declining), or changes nothing. */
  lemma DeliverMoves(step: AuthStep, ev: AuthEvent)
    ensures var next := Deliver(step, ev);
            next == step
            || Rank(next) == Rank(step) + 1
            || (step == DigitalIdSendConsent && ev == SendConsentCancelled && next == Login)
  {
  }

  /** There is no way out of the authenticated step: the main application
      holds none of the sign-in callbacks. */
  lemma {:induction false} AuthenticatedAbsorbing(evs: seq<AuthEvent>)
    ensures Run(Authenticated, evs) == Authenticated
    decreases |evs|
  {
    if evs != [] {
      AuthenticatedAbsorbing(evs[1..]);
    }
  }

  /** Each event advances at most one step, so no run of events moves further
      than its length. */
  lemma {:induction false} RunRankBound(step: AuthStep, evs: seq<AuthEvent>)
    ensures Rank(Run(step, evs)) <= Rank(step) + |evs|
    decreases |evs|
  {
    if evs != [] {
      DeliverMoves(step, evs[0]);
      RunRankBound(Deliver(step, evs[0]), evs[1..]);
    }
  }

  /** Reaching the main application from the login screen takes at least the
      seven events of the happy path. */
  lemma AuthenticationNeedsSevenEvents(evs: seq<AuthEvent>)
    requires Run(Login, evs) == Authenticated
    ensures |evs| >= 7
  {
    RunRankBound(Login, evs);
  }

  // ---------------------------------------------------------------------------
  // Opening a program

  /** `programs.find(p => p.id === id)`: the first program with that id. */
  function FindProgram(programs: seq<SubsidyProgram>, id: string): (r: Option<SubsidyProgram>)
    ensures r.None? <==> forall i :: 0 <= i < |programs| ==> programs[i].id != id
    ensures r.Some? ==> exists k :: 0 <= k < |programs| && programs[k] == r.value && r.value.id == id
                                    && forall j :: 0 <= j < k ==> programs[j].id != id
    decreases |programs|
  {
    if programs == [] then None
    else if programs[0].id == id then Some(programs[0])
    else
      var r := FindProgram(programs[1..], id);
      assert forall i :: 1 <= i < |programs| ==> programs[i] == programs[1..][i - 1];
      if r.Some? then
        ghost var k :| 0 <= k < |programs[1..]| && programs[1..][k] == r.value && r.value.id == id
                        && forall j :: 0 <= j < k ==> programs[1..][j].id != id;
        assert programs[k + 1] == r.value;
        r
      else r
  }

  /** The state the application keeps across screens. */
  class AppState {
    var authStep: AuthStep
    var selectedProgram: Option<SubsidyProgram>
    var walletAction: WalletAction
    /** The fixed program catalogue. */
    const programs: seq<SubsidyProgram>

    constructor (catalogue: seq<SubsidyProgram>)
      ensures authStep == Login
      ensures selectedProgram == None && walletAction == View
      ensures programs == catalogue
    {
      authStep := Login;
      selectedProgram := None;
      walletAction := View;
      programs := catalogue;
    }

    /** Runs the handler behind a callback of the rendered screen. */
    method Dispatch(ev: AuthEvent)
      modifies this
      ensures authStep == Deliver(old(authStep), ev)
      ensures selectedProgram == old(selectedProgram) && walletAction == old(walletAction)
    {
      if ev in Callbacks(ScreenFor(authStep)) {
        match ev
        case LoginPressed => HandleLogin();
        case ConsentConfirmed => HandleConsentConfirmed();
        case RedirectComplete => HandleRedirectComplete();
        case SendConsentConfirmed => HandleSendConsentConfirmed();
        case SendConsentCancelled => HandleSendConsentCancelled();
        case BiometricSuccess => HandleBiometricSuccess();
        case SuccessDismissed => HandleAuthSuccessDismiss();
        case ReturnComplete => HandleAppReturnComplete();
      }
    }

    method HandleLogin()
      modifies this
      ensures authStep == DigitalIdConsent
      ensures selectedProgram == old(selectedProgram) && walletAction == old(walletAction)
    {
      authStep := DigitalIdConsent;
    }

    method HandleConsentConfirmed()
      modifies this
      ensures authStep == RedirectingToDigitalId
      ensures selectedProgram == old(selectedProgram) && walletAction == old(walletAction)
    {
      authStep := RedirectingToDigitalId;
    }

    method HandleRedirectComplete()
      modifies this
      ensures authStep == DigitalIdSendConsent
      ensures selectedProgram == old(selectedProgram) && walletAction == old(walletAction)
    {
      authStep := DigitalIdSendConsent;
    }

    method HandleSendConsentConfirmed()
      modifies this
      ensures authStep == Biometric
      ensures selectedProgram == old(selectedProgram) && walletAction == old(walletAction)
    {
      authStep := Biometric;
    }

    method HandleSendConsentCancelled()
      modifies this
      ensures authStep == Login
      ensures selectedProgram == old(selectedProgram) && walletAction == old(walletAction)
    {
      authStep := Login;
    }

    method HandleBiometricSuccess()
      modifies this
      ensures authStep == AuthSuccess
      ensures selectedProgram == old(selectedProgram) && walletAction == old(walletAction)
    {
      authStep := AuthSuccess;
    }

    method HandleAuthSuccessDismiss()
      modifies this
      ensures authStep == ReturnToApp
      ensures selectedProgram == old(selectedProgram) && walletAction == old(walletAction)
    {
      authStep := ReturnToApp;
    }

    method HandleAppReturnComplete()
      modifies this
      ensures authStep == Authenticated
      ensures selectedProgram == old(selectedProgram) && walletAction == old(walletAction)
    {
      authStep := Authenticated;
    }

    /** `handleOpenProgram(id, action = 'view')`: an unknown id changes
        nothing; a known one selects the first program with that id and
        records how to open it. */
    method HandleOpenProgram(id: string, action: WalletAction := View)
      modifies this
      ensures FindProgram(programs, id).None? ==>
                selectedProgram == old(selectedProgram) && walletAction == old(walletAction)
      ensures FindProgram(programs, id).Some? ==>
                selectedProgram == FindProgram(programs, id) && walletAction == action
      ensures selectedProgram.Some? && selectedProgram != old(selectedProgram) ==>
                selectedProgram.value in programs && selectedProgram.value.id == id
      ensures authStep == old(authStep)
    {
      var program := FindProgram(programs, id);
      if program.Some? {
        selectedProgram := program;
        walletAction := action;
      }
    }

    /** A dashboard card click selects its program and leaves `walletAction`
        as the last `handleOpenProgram` set it. */
    method SelectCard(p: SubsidyProgram)
      requires p in programs  // the cards are drawn from the catalogue
      modifies this
      ensures selectedProgram == Some(p)
      ensures walletAction == old(walletAction) && authStep == old(authStep)
    {
      selectedProgram := Some(p);
    }

    /** Closing the wallet overlay. */
    method CloseProgram()
      modifies this
      ensures selectedProgram == None
      ensures walletAction == old(walletAction) && authStep == old(authStep)
    {
      selectedProgram := None;
    }
  }

  // ---------------------------------------------------------------------------
  // Dashboard figures

  /** A program's balance is in ringgit when its unit is RM or unset. */
  predicate InRinggit(p: SubsidyProgram) {
    p.quotaUnit == Some(RM) || p.quotaUnit == None
  }

  /** The `reduce` behind the total balance: ringgit balances are summed and
      the others are skipped. */
  function TotalBalance(programs: seq<SubsidyProgram>): (t: real)
    ensures (forall i :: 0 <= i < |programs| ==> !InRinggit(programs[i])) ==> t == 0.0
    decreases |programs|
  {
    if programs == [] then 0.0
    else
      assert forall i :: 0 <= i < |programs| - 1 ==> programs[1..][i] == programs[i + 1];
      (if InRinggit(programs[0]) then programs[0].currentBalance else 0.0) + TotalBalance(programs[1..])
  }

  function SumBalances(programs: seq<SubsidyProgram>): real
    decreases |programs|
  {
    if programs == [] then 0.0 else programs[0].currentBalance + SumBalances(programs[1..])
  }

  /** The total is the plain sum over the ringgit programs: litre and visit
      quotas contribute nothing. */
  lemma {:induction false} TotalBalanceIsRinggitSum(programs: seq<SubsidyProgram>)
    ensures TotalBalance(programs) == SumBalances(Filter(InRinggit, programs))
    decreases |programs|
  {
    if programs != [] {
      TotalBalanceIsRinggitSum(programs[1..]);
      var f := Filter(InRinggit, programs);
      if InRinggit(programs[0]) {
        assert f == [programs[0]] + Filter(InRinggit, programs[1..]);
        assert f[0] == programs[0];
        assert f[1..] == Filter(InRinggit, programs[1..]);
      } else {
        assert f == Filter(InRinggit, programs[1..]);
      }
    }
  }

  /** The total over a concatenation is the sum of the totals. */
  lemma {:induction false} TotalBalanceAppend(a: seq<SubsidyProgram>, b: seq<SubsidyProgram>)
    ensures TotalBalance(a + b) == TotalBalance(a) + TotalBalance(b)
    decreases |a|
  {
    if a == [] {
      assert a + b == b;
    } else {
      assert (a + b)[1..] == a[1..] + b;
      TotalBalanceAppend(a[1..], b);
    }
  }

  /** A catalogue whose ringgit balances are non-negative has a non-negative
      total. */
  lemma {:induction false} TotalBalanceNonNegative(programs: seq<SubsidyProgram>)
    requires forall i :: 0 <= i < |programs| ==> programs[i].currentBalance >= 0.0
    ensures TotalBalance(programs) >= 0.0
    decreases |programs|
  {
    if programs != [] {
      TotalBalanceNonNegative(programs[1..]);
    }
  }

  predicate IsPending(p: SubsidyProgram) {
    p.eligibilityStatus == EligibilityPending
  }

  /** A program needs action when it has a non-empty alert or its application
      is waiting for documents. */
  predicate NeedsAction(p: SubsidyProgram) {
    Truthy(p.alertMessage) || p.applicationStatus == DocumentsRequired
  }

  function ActiveCount(programs: seq<SubsidyProgram>): (c: nat)
    ensures c <= |programs|
  {
    |Filter(SubsidyCard.IsEligible, programs)|
  }

  function PendingCount(programs: seq<SubsidyProgram>): (c: nat)
    ensures c <= |programs|
  {
    |Filter(IsPending, programs)|
  }

  function ActionNeededCount(programs: seq<SubsidyProgram>): (c: nat)
    ensures c <= |programs|
  {
    |Filter(NeedsAction, programs)|
  }

  /** Each count is the number of programs meeting its test, counted with
      multiplicity, and never more than the catalogue. */
  lemma {:induction false} CountsExact(programs: seq<SubsidyProgram>)
    ensures ActiveCount(programs) == |programs| - |Filter((p: SubsidyProgram) => !SubsidyCard.IsEligible(p), programs)|
    ensures PendingCount(programs) <= |programs| && ActionNeededCount(programs) <= |programs|
    ensures ActiveCount(programs) == 0 <==> forall i :: 0 <= i < |programs| ==> !SubsidyCard.IsEligible(programs[i])
    ensures PendingCount(programs) == 0 <==> forall i :: 0 <= i < |programs| ==> !IsPending(programs[i])
    ensures ActionNeededCount(programs) == 0 <==> forall i :: 0 <= i < |programs| ==> !NeedsAction(programs[i])
    decreases |programs|
  {
    FilterEmptyIff(SubsidyCard.IsEligible, programs);
    FilterEmptyIff(IsPending, programs);
    FilterEmptyIff(NeedsAction, programs);
    if programs != [] {
      CountsExact(programs[1..]);
    }
  }

  /** The case-insensitive substring test on name or description. */
  predicate MatchesSearch(p: SubsidyProgram, query: string) {
    Contains(ToLower(p.programName), ToLower(query)) || Contains(ToLower(p.programDescription), ToLower(query))
  }

  /** The category chip test: `All`, or the category's name ignoring case. */
  predicate MatchesCategory(p: SubsidyProgram, selectedCategory: string) {
    selectedCategory == "All" || ToLower(CategoryName(p.category)) == ToLower(selectedCategory)
  }

  /** The programs shown on the dashboard for a query and a chip. */
  function FilteredPrograms(programs: seq<SubsidyProgram>, query: string, selectedCategory: string): (r: seq<SubsidyProgram>)
    ensures forall i :: 0 <= i < |r| ==> r[i] in programs
    ensures forall i :: 0 <= i < |r| ==> MatchesSearch(r[i], query) && MatchesCategory(r[i], selectedCategory)
  {
    Filter((p: SubsidyProgram) => MatchesSearch(p, query) && MatchesCategory(p, selectedCategory), programs)
  }

  /** The shown programs are exactly the matching ones, in catalogue order. */
  lemma FilteredProgramsExact(programs: seq<SubsidyProgram>, query: string, selectedCategory: string, p: SubsidyProgram)
    ensures SubsequenceOf(FilteredPrograms(programs, query, selectedCategory), programs)
    ensures multiset(FilteredPrograms(programs, query, selectedCategory))[p] ==
              if MatchesSearch(p, query) && MatchesCategory(p, selectedCategory) then multiset(programs)[p] else 0
  {
    var f := (p: SubsidyProgram) => MatchesSearch(p, query) && MatchesCategory(p, selectedCategory);
    FilterSubsequence(f, programs);
    FilterMultiplicity(f, programs, p);
  }

  /** With an empty search and the `All` chip every program is shown. */
  lemma {:induction false} UnfilteredShowsAll(programs: seq<SubsidyProgram>)
    ensures FilteredPrograms(programs, "", "All") == programs
  {
    forall i | 0 <= i < |programs|
      ensures MatchesSearch(programs[i], "") && MatchesCategory(programs[i], "All")
    {
      ContainsEmpty(ToLower(programs[i].programName));
    }
    FilterAllPass((p: SubsidyProgram) => MatchesSearch(p, "") && MatchesCategory(p, "All"), programs);
  }

  /** The category chips other than `All`, paired with the category each one
      selects. */
  function ChipCategory(chip: string): Option<Category> {
    if chip == "Groceries" then Some(Groceries)
    else if chip == "Fuel" then Some(Fuel)
    else if chip == "Medical" then Some(Medical)
    else if chip == "Elderly" then Some(Elderly)
    else if chip == "Children" then Some(Children)
    else if chip == "Selangor" then Some(Selangor)
    else None
  }

  /** Each chip keeps exactly the programs of its own category. */
  lemma ChipSelectsItsCategory(p: SubsidyProgram, chip: string)
    requires ChipCategory(chip).Some?
    ensures MatchesCategory(p, chip) <==> p.category == ChipCategory(chip).value
  {
    var c := ChipCategory(chip).value;
    assert ToLower(chip) == CategoryName(c) by {
      if chip == "Groceries" { assert ToLower("Groceries") == "groceries"; }
      else if chip == "Fuel" { assert ToLower("Fuel") == "fuel"; }
      else if chip == "Medical" { assert ToLower("Medical") == "medical"; }
      else if chip == "Elderly" { assert ToLower("Elderly") == "elderly"; }
      else if chip == "Children" { assert ToLower("Children") == "children"; }
      else { assert ToLower("Selangor") == "selangor"; }
    }
    CategoryNameLower(p.category);
    CategoryNameInjective(p.category, c);
  }

  lemma CategoryNameLower(c: Category)
    ensures ToLower(CategoryName(c)) == CategoryName(c)
  {
    ToLowerLowers(CategoryName(c));
  }

  lemma CategoryNameInjective(a: Category, b: Category)
    ensures CategoryName(a) == CategoryName(b) ==> a == b
  {
    if CategoryName(a) == CategoryName(b) {
      assert CategoryName(a)[0] == CategoryName(b)[0];
      assert |CategoryName(a)| == |CategoryName(b)|;
    }
  }
}
