/** The Personal tab: the stack of three identity cards, the renewal and
    payment actions behind a biometric check, the editable personal details,
    and the document list (view, upload, delete) whose contents the app
    owns. */
module DigitalIdWallet {
  import opened Wrappers
  import opened Seqs
  import opened Strings
  import opened Types

  const CardCount: nat := 3

  // ---------------------------------------------------------------------------
  // the card stack

  /** `cycleCards`: the next card comes to the front, wrapping around. */
  function Cycle(i: nat): (j: nat)
    requires i < CardCount
    ensures j < CardCount
    ensures i + 1 < CardCount ==> j == i + 1
    ensures i + 1 == CardCount ==> j == 0
  {
    (i + 1) % CardCount
  }

  /** Three cycles bring the stack back to where it was. */
  lemma CycleThrice(i: nat)
    requires i < CardCount
    ensures Cycle(Cycle(Cycle(i))) == i
  {
  }

  /** A card's place in the stack: 0 at the front, then 1, then 2. */
  function Position(index: int, active: int, n: int): (p: int)
    requires 0 <= index < n && 0 <= active < n
    ensures 0 <= p < n
    ensures p == 0 <==> index == active
    ensures CardAt(p, active, n) == index
  {
    ModSmall(index - active + n, n);
    (index - active + n) % n
  }

  /** The card shown at place `p` of the stack. */
  function CardAt(p: int, active: int, n: int): (c: int)
    requires 0 <= p < n && 0 <= active < n
    ensures c == if p + active >= n then p + active - n else p + active
  {
    ModSmall(p + active, n);
    (p + active) % n
  }

  lemma ModSmall(x: int, n: int)
    requires 0 < n && 0 <= x < 2 * n
    ensures x % n == (if x >= n then x - n else x)
  {
    var q, r := x / n, x % n;
    assert x == q * n + r;
    if q == 0 { assert r == x; } else if q == 1 { assert r == x - n; }
  }

  /** Every place of the stack holds exactly one card: `Position` is a
      bijection of 0..n-1, with `CardAt` its inverse. */
  lemma PositionIsPermutation(active: int, n: int)
    requires 0 <= active < n
    ensures forall i, j :: 0 <= i < n && 0 <= j < n && Position(i, active, n) == Position(j, active, n) ==> i == j
    ensures forall p :: 0 <= p < n ==> 0 <= CardAt(p, active, n) < n && Position(CardAt(p, active, n), active, n) == p
  {
  }

  datatype Tier = Front | Middle | Back

  /** The styling tier a position selects. */
  function TierOf(p: int): (t: Tier)
    ensures t == Front <==> p == 0
    ensures t == Middle <==> p == 1
  {
    if p == 0 then Front else if p == 1 then Middle else Back
  }

  /** Exactly the active card is styled as the front card. */
  lemma OneFrontCard(active: int, index: int)
    requires 0 <= active < CardCount && 0 <= index < CardCount
    ensures TierOf(Position(index, active, CardCount)) == Front <==> index == active
  {
  }

  // ---------------------------------------------------------------------------
  // documents

  /** The parts of a chosen file the upload reads; the size is kept as its
      formatted label. */
  datatype FileInfo = FileInfo(name: string, mimeType: string, sizeLabel: string)

  /** The document record built when an upload completes. */
  function UploadedDoc(file: FileInfo, id: string, date: string, url: string): (d: Doc)
    ensures d.kind == Pdf <==> Contains(file.mimeType, "pdf")
    ensures d.name == file.name && d.size == file.sizeLabel && d.fileUrl == Some(url)
    ensures d.id == id && d.date == date
  {
    Doc(id, file.name, date, file.sizeLabel, if Contains(file.mimeType, "pdf") then Pdf else Img, Some(url))
  }

  /** The progress updater run by the upload interval. */
  function NextProgress(prev: nat): (next: nat)
    ensures prev >= 100 ==> next == 100
    ensures prev < 100 ==> next == prev + 10
  {
    if prev >= 100 then 100 else prev + 10
  }

  /** From 0 the progress moves in steps of ten and stops at 100. */
  lemma ProgressOnGrid(prev: nat)
    requires prev % 10 == 0 && prev <= 100
    ensures NextProgress(prev) % 10 == 0 && NextProgress(prev) <= 100
    ensures prev <= NextProgress(prev)
  {
  }

  predicate KeepsOthers(id: string, d: Doc) {
    d.id != id
  }

  /** The list after deleting the document `id`. */
  function Deleted(docs: seq<Doc>, id: string): (r: seq<Doc>)
    ensures forall i :: 0 <= i < |r| ==> r[i].id != id && r[i] in docs
  {
    Filter(d => KeepsOthers(id, d), docs)
  }

  /** Deletion keeps every other document, as often as it occurs, in its
      order, and removes every document with that id. */
  lemma DeletedExact(docs: seq<Doc>, id: string, d: Doc)
    ensures multiset(Deleted(docs, id))[d] == if d.id != id then multiset(docs)[d] else 0
    ensures SubsequenceOf(Deleted(docs, id), docs)
  {
    FilterMultiplicity(d => KeepsOthers(id, d), docs, d);
    FilterSubsequence(d => KeepsOthers(id, d), docs);
  }

  /** Deleting an id no document has leaves the list as it is. */
  lemma DeleteUnknownId(docs: seq<Doc>, id: string)
    requires forall i :: 0 <= i < |docs| ==> docs[i].id != id
    ensures Deleted(docs, id) == docs
  {
    FilterAllPass(d => KeepsOthers(id, d), docs);
  }

  // ---------------------------------------------------------------------------
  // the component

  datatype View = Cards | Personal | Documents

  datatype Profile = Profile(
    name: string, icNumber: string, email: string, phone: string,
    address: string, occupation: string, householdIncome: int)

  /** An upload in flight: the file, its preview URL, the document list as it
      was when the file was chosen, and whether its progress interval still
      runs. */
  datatype Upload = Upload(file: FileInfo, url: string, snapshot: seq<Doc>, intervalLive: bool)

  /** `parseInt(value) || 0` for the income field; a value that does not
      parse is `None`. */
  function IncomeOf(parsed: Option<int>): (n: int)
    ensures parsed.None? ==> n == 0
    ensures parsed.Some? ==> n == parsed.value
  {
    if parsed.Some? && parsed.value != 0 then parsed.value else 0
  }

  datatype Snapshot = Snapshot(
    view: View, docs: seq<Doc>, viewingDoc: Option<Doc>, activeIndex: nat,
    renewalAction: Option<string>, showBiometric: bool, paymentSuccess: bool,
    verifierChains: nat, successTimers: nat, resetTimers: nat,
    profile: Profile, isEditing: bool, saveLoading: bool, saveTimerPending: bool,
    showUploadSheet: bool, uploads: seq<Upload>, uploadProgress: nat, isUploading: bool)

  /** The Personal tab. `docs` is the list the app owns and passes in; every
      update the component makes replaces it. `verifierChains` counts the
      completions the biometric verifier has scheduled, `successTimers` and
      `resetTimers` the 500ms and 2000ms timers of the renewal flow. */
  class IdWallet {
    var view: View
    var docs: seq<Doc>
    var viewingDoc: Option<Doc>
    var activeIndex: nat
    var renewalAction: Option<string>
    var showBiometric: bool
    var paymentSuccess: bool
    var verifierChains: nat
    var successTimers: nat
    var resetTimers: nat
    var profile: Profile
    var isEditing: bool
    var saveLoading: bool
    var saveTimerPending: bool
    var showUploadSheet: bool
    var uploads: seq<Upload>
    var uploadProgress: nat
    var isUploading: bool

    ghost function State(): Snapshot
      reads this
    {
      Snapshot(view, docs, viewingDoc, activeIndex, renewalAction, showBiometric, paymentSuccess,
               verifierChains, successTimers, resetTimers, profile, isEditing, saveLoading,
               saveTimerPending, showUploadSheet, uploads, uploadProgress, isUploading)
    }

    ghost predicate Valid()
      reads this
    {
      activeIndex < CardCount
      && uploadProgress % 10 == 0 && uploadProgress <= 100
      && saveTimerPending == saveLoading
      && (saveLoading ==> isEditing)
      && (isUploading ==> |uploads| > 0)
    }

    /** The tab as first shown: the card view, nothing pending. */
    constructor (docs: seq<Doc>, profile: Profile)
      ensures Valid()
      ensures State() == Snapshot(Cards, docs, None, 0, None, false, false, 0, 0, 0, profile,
                                  false, false, false, false, [], 0, false)
    {
      view := Cards;
      this.docs := docs;
      viewingDoc := None;
      activeIndex := 0;
      renewalAction := None;
      showBiometric := false;
      paymentSuccess := false;
      verifierChains := 0;
      successTimers := 0;
      resetTimers := 0;
      this.profile := profile;
      isEditing := false;
      saveLoading := false;
      saveTimerPending := false;
      showUploadSheet := false;
      uploads := [];
      uploadProgress := 0;
      isUploading := false;
    }

    /** A tap on the card stack. */
    method CycleCards()
      requires Valid() && view == Cards && !showBiometric
      modifies this
      ensures Valid()
      ensures State() == old(State()).(activeIndex := Cycle(old(activeIndex)))
    {
      activeIndex := (activeIndex + 1) % CardCount;
    }

    /** The settings rows open the personal details or the documents; the
        headers' back buttons return to the cards. */
    method Navigate(v: View)
      requires Valid() && !showBiometric
      requires v == Cards || view == Cards
      modifies this
      ensures Valid()
      ensures State() == old(State()).(view := v)
    {
      view := v;
    }

    /** `handleActionClick(action)`. */
    method ActionClick(action: string)
      requires Valid() && view == Cards && !showBiometric
      modifies this
      ensures Valid()
      ensures State() == old(State()).(renewalAction := Some(action), showBiometric := true)
    {
      renewalAction := Some(action);
      showBiometric := true;
    }

    /** The verifier's clip became playable: its completion chain starts. */
    method VerifierStarts()
      requires Valid() && showBiometric
      modifies this
      ensures Valid()
      ensures State() == old(State()).(verifierChains := old(verifierChains) + 1)
    {
      verifierChains := verifierChains + 1;
    }

    /** `handleVerificationComplete`: the verifier closes and success follows
        500ms later. */
    method VerificationComplete()
      requires Valid() && verifierChains > 0
      modifies this
      ensures Valid()
      ensures State() == old(State()).(showBiometric := false, verifierChains := old(verifierChains) - 1,
                                       successTimers := old(successTimers) + 1)
    {
      showBiometric := false;
      verifierChains := verifierChains - 1;
      successTimers := successTimers + 1;
    }

    /** The 500ms timer: success is shown, and cleared 2000ms later. */
    method SuccessTimerFires()
      requires Valid() && successTimers > 0
      modifies this
      ensures Valid()
      ensures State() == old(State()).(paymentSuccess := true, successTimers := old(successTimers) - 1,
                                       resetTimers := old(resetTimers) + 1)
    {
      paymentSuccess := true;
      successTimers := successTimers - 1;
      resetTimers := resetTimers + 1;
    }

    /** The 2000ms timer: the flow ends with no action selected. */
    method ResetTimerFires()
      requires Valid() && resetTimers > 0
      modifies this
      ensures Valid()
      ensures State() == old(State()).(paymentSuccess := false, renewalAction := None,
                                       resetTimers := old(resetTimers) - 1)
    {
      paymentSuccess := false;
      renewalAction := None;
      resetTimers := resetTimers - 1;
    }

    /** The Edit button. */
    method StartEditing()
      requires Valid() && view == Personal && !isEditing
      modifies this
      ensures Valid()
      ensures State() == old(State()).(isEditing := true)
    {
      isEditing := true;
    }

    /** Editing a field; the name and the IC number are not editable. */
    method EditDetails(email: string, phone: string, address: string, occupation: string, income: Option<int>)
      requires Valid() && view == Personal && isEditing
      modifies this
      ensures Valid()
      ensures State() == old(State()).(profile := old(profile).(email := email, phone := phone, address := address,
                                                               occupation := occupation, householdIncome := IncomeOf(income)))
      ensures profile.name == old(profile.name) && profile.icNumber == old(profile.icNumber)
    {
      profile := profile.(email := email, phone := phone, address := address, occupation := occupation,
                          householdIncome := if income.Some? && income.value != 0 then income.value else 0);
    }

    /** Cancel leaves edit mode and keeps the edited values. */
    method CancelEditing()
      requires Valid() && view == Personal && isEditing && !saveLoading
      modifies this
      ensures Valid()
      ensures State() == old(State()).(isEditing := false)
    {
      isEditing := false;
    }

    /** `handleSaveProfile`. */
    method SaveProfile()
      requires Valid() && view == Personal && isEditing && !saveLoading
      modifies this
      ensures Valid()
      ensures State() == old(State()).(saveLoading := true, saveTimerPending := true)
    {
      saveLoading := true;
      saveTimerPending := true;
    }

    /** The save timer, 1500ms later. */
    method SaveTimerFires()
      requires Valid() && saveTimerPending
      modifies this
      ensures Valid()
      ensures State() == old(State()).(saveLoading := false, isEditing := false, saveTimerPending := false)
    {
      saveLoading := false;
      isEditing := false;
      saveTimerPending := false;
    }

    method OpenUploadSheet()
      requires Valid() && view == Documents
      modifies this
      ensures Valid()
      ensures State() == old(State()).(showUploadSheet := true)
    {
      showUploadSheet := true;
    }

    method CloseUploadSheet()
      requires Valid() && view == Documents
      modifies this
      ensures Valid()
      ensures State() == old(State()).(showUploadSheet := false)
    {
      showUploadSheet := false;
    }

    /** `handleFileUpload`: with no file chosen nothing changes; otherwise the
        sheet closes, progress restarts at 0, and an upload starts with its
        interval and with the current document list captured. */
    method FileChosen(file: Option<FileInfo>, url: string)
      requires Valid() && view == Documents && showUploadSheet
      modifies this
      ensures Valid()
      ensures file.None? ==> State() == old(State())
      ensures file.Some? ==>
                State() == old(State()).(showUploadSheet := false, isUploading := true, uploadProgress := 0,
                                         uploads := old(uploads) + [Upload(file.value, url, old(docs), true)])
    {
      if file.Some? {
        showUploadSheet := false;
        isUploading := true;
        uploadProgress := 0;
        uploads := uploads + [Upload(file.value, url, docs, true)];
      }
    }

    /** A 200ms tick of upload `k`'s interval: at 100 the interval clears
        itself. */
    method ProgressTick(k: nat)
      requires Valid() && k < |uploads| && uploads[k].intervalLive
      modifies this
      ensures Valid()
      ensures uploadProgress == NextProgress(old(uploadProgress))
      ensures old(uploadProgress) >= 100 ==> State() == old(State()).(uploads := old(uploads)[k := old(uploads)[k].(intervalLive := false)])
      ensures old(uploadProgress) < 100 ==> State() == old(State()).(uploadProgress := old(uploadProgress) + 10)
    {
      ProgressOnGrid(uploadProgress);
      if uploadProgress >= 100 {
        uploads := uploads[k := uploads[k].(intervalLive := false)];
      } else {
        uploadProgress := uploadProgress + 10;
      }
    }

    /** The oldest upload's 2500ms timer: its interval stops, the spinner
        goes, and the app's list becomes the new document followed by the list
        captured when the file was chosen. */
    method UploadCompletes(id: string, date: string)
      requires Valid() && |uploads| > 0
      modifies this
      ensures Valid()
      ensures State() == old(State()).(uploads := old(uploads)[1..], isUploading := false,
                                       docs := [UploadedDoc(old(uploads)[0].file, id, date, old(uploads)[0].url)]
                                               + old(uploads)[0].snapshot)
    {
      var u := uploads[0];
      uploads := uploads[1..];
      isUploading := false;
      docs := [UploadedDoc(u.file, id, date, u.url)] + u.snapshot;
    }

    /** The trash button of the document `id`. */
    method DeleteDoc(id: string)
      requires Valid() && view == Documents
      modifies this
      ensures Valid()
      ensures State() == old(State()).(docs := Deleted(old(docs), id))
    {
      docs := Filter(d => KeepsOthers(id, d), docs);
    }

    method OpenDoc(d: Doc)
      requires Valid() && view == Documents && d in docs
      modifies this
      ensures Valid()
      ensures State() == old(State()).(viewingDoc := Some(d))
    {
      viewingDoc := Some(d);
    }

    method CloseDoc()
      requires Valid()
      modifies this
      ensures Valid()
      ensures State() == old(State()).(viewingDoc := None)
    {
      viewingDoc := None;
    }
  }

  /** An upload with the list left alone prepends exactly one document, of
      the kind its MIME type names, and keeps every earlier one in order. */
  method UploadAlonePrepends(docs: seq<Doc>, file: FileInfo, url: string) returns (w: IdWallet)
    ensures |w.docs| == |docs| + 1 && w.docs[1..] == docs
    ensures w.docs[0] == UploadedDoc(file, "1", "1 Jan 2025", url)
    ensures w.docs[0].kind == Pdf <==> Contains(file.mimeType, "pdf")
    ensures !w.isUploading
  {
    var profile := Profile("", "", "", "", "", "", 0);
    w := new IdWallet(docs, profile);
    w.Navigate(Documents);
    w.OpenUploadSheet();
    w.FileChosen(Some(file), url);
    w.ProgressTick(0);
    w.UploadCompletes("1", "1 Jan 2025");
  }

  /** The upload's completion restores the list it captured: a document
      deleted while the upload ran comes back. */
  method DeleteDuringUploadIsUndone(kept: Doc, file: FileInfo) returns (w: IdWallet)
    ensures |w.docs| == 2 && w.docs[1] == kept
  {
    var profile := Profile("", "", "", "", "", "", 0);
    w := new IdWallet([kept], profile);
    w.Navigate(Documents);
    w.OpenUploadSheet();
    w.FileChosen(Some(file), "blob:preview");
    w.DeleteDoc(kept.id);
    assert w.docs == [] by {
      assert KeepsOthers(kept.id, kept) == false;
      assert Filter(d => KeepsOthers(kept.id, d), [kept]) == [];
    }
    w.UploadCompletes("1", "1 Jan 2025");
  }
}
