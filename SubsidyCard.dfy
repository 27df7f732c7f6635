/** The subsidy card on the home dashboard: eligibility, the balance's unit
    and suffix, the progress percentage, the screen-reader label and the
    action text. */
module SubsidyCard {
  import opened Wrappers
  import opened Strings
  import opened Types

  /** A program counts as eligible when its eligibility is `eligible` or its
      application is `approved`. */
  predicate IsEligible(p: SubsidyProgram) {
    p.eligibilityStatus == Eligible || p.applicationStatus == Approved
  }

  /** The currency prefix of the balance. */
  function Unit(p: SubsidyProgram): (u: string)
    ensures u == "RM" <==> (p.quotaUnit == Some(RM) || p.quotaUnit == None)
    ensures u != "RM" ==> u == ""
  {
    if p.quotaUnit == Some(RM) || p.quotaUnit == None then "RM" else ""
  }

  /** The unit suffix of the balance: `' '` followed by the unit's name for
      units other than RM, with litres abbreviated to `L`. */
  function Suffix(p: SubsidyProgram): (s: string)
    ensures p.quotaUnit == Some(Litres) ==> s == " L"
    ensures p.quotaUnit == Some(Visits) ==> s == " visits"
    ensures s == "" <==> (p.quotaUnit == Some(RM) || p.quotaUnit == None)
  {
    match p.quotaUnit
    case Some(Litres) => " L"
    case Some(Visits) => " " + "visits"
    case _ => ""
  }

  /** A balance is shown with exactly one of a currency prefix or a unit
      suffix. */
  lemma UnitXorSuffix(p: SubsidyProgram)
    ensures (Unit(p) == "") != (Suffix(p) == "")
  {
  }

  /** The filled share of the progress bar, in percent. */
  function Percentage(p: SubsidyProgram): (pct: real)
    ensures pct <= 100.0
    ensures p.totalAllocated <= 0.0 ==> pct == 0.0
    ensures p.currentBalance >= 0.0 ==> pct >= 0.0
    ensures p.totalAllocated > 0.0 && p.currentBalance <= p.totalAllocated ==>
              pct * p.totalAllocated == p.currentBalance * 100.0
    ensures p.totalAllocated > 0.0 && p.currentBalance >= p.totalAllocated ==> pct == 100.0
  {
    if p.totalAllocated > 0.0 then
      var raw := (p.currentBalance / p.totalAllocated) * 100.0;
      if raw < 100.0 then raw else 100.0
    else
      0.0
  }

  /** The progress widget is drawn only for programs with an allocation. */
  predicate ShowsProgress(p: SubsidyProgram): (b: bool)
    ensures !b ==> Percentage(p) == 0.0
  {
    p.totalAllocated > 0.0
  }

  /** The status word of the screen-reader label. */
  function StatusWord(p: SubsidyProgram): (w: string)
    ensures w == "Active" <==> IsEligible(p)
    ensures !IsEligible(p) ==> w == "Pending"
  {
    if IsEligible(p) then "Active" else "Pending"
  }

  /** The alert part of the screen-reader label: present only for a program
      with a non-empty alert message. */
  function AlertPart(p: SubsidyProgram): (a: string)
    ensures a == "" <==> !Truthy(p.alertMessage)
    ensures Truthy(p.alertMessage) ==> StartsWith(a, "Alert: ") && EndsWith(a, p.alertMessage.value)
  {
    if Truthy(p.alertMessage) then "Alert: " + p.alertMessage.value else ""
  }

  /** The full screen-reader label; `value` is the locale-formatted balance. */
  function A11yLabel(p: SubsidyProgram, value: string): (l: string)
    ensures StartsWith(l, p.programName + " (" + p.programCode + "). Balance: ")
    ensures EndsWith(l, ". Status: " + StatusWord(p) + ". " + AlertPart(p))
  {
    var head := p.programName + " (" + p.programCode + "). Balance: ";
    var tail := ". Status: " + StatusWord(p) + ". " + AlertPart(p);
    var l := head + Unit(p) + value + Suffix(p) + tail;
    assert l[..|head|] == head;
    assert l[|l| - |tail|..] == tail;
    l
  }

  /** The caption of the card's action button. */
  function ActionText(p: SubsidyProgram): (t: string)
    ensures t == "Refuel Now" <==> IsEligible(p) && p.category == Fuel
    ensures t == "Pay / Scan" <==> IsEligible(p) && p.category != Fuel
    ensures t == "Not Eligible" <==> !IsEligible(p)
  {
    if IsEligible(p) then (if p.category == Fuel then "Refuel Now" else "Pay / Scan") else "Not Eligible"
  }

  /** The alert stripe, drawn only when there is an alert message, is red for
      urgent alerts and amber otherwise. */
  function AlertBarRed(p: SubsidyProgram): (red: Option<bool>)
    ensures red.None? <==> !Truthy(p.alertMessage)
    ensures red == Some(true) <==> Truthy(p.alertMessage) && p.alertType == Some(Urgent)
  {
    if Truthy(p.alertMessage) then Some(p.alertType == Some(Urgent)) else None
  }
}
