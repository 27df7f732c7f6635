/** The VoiceOver simulation: while it is on, a click selects the nearest
    meaningful element, highlights it and speaks it; a second click on the
    same element within 500ms activates it with a synthetic click. The toggle
    button is never intercepted. Elements are abstract: an id and the
    attributes the speech reads. */
module VoiceOverMock {
  import opened Wrappers
  import opened Strings
  import opened Types

  const DoubleTapMs: int := 500
  const MaxSpokenChars: nat := 150

  /** An element: `tagName` in upper case, `role`, `ariaLabel` and `alt` the
      attributes (`None` when absent), `clickableClass` whether its class list
      holds the Tailwind class that gives it a hand cursor. */
  datatype Element = Element(
    id: nat, tagName: string, role: Option<string>, ariaLabel: Option<string>,
    alt: Option<string>, innerText: string, clickableClass: bool)

  /** A click: its target, whether the target is inside `#vo-toggle`, the
      closest meaningful element around it, and the time. */
  datatype Click = Click(targetId: nat, inToggle: bool, interactive: Option<Element>, now: int)

  // ---------------------------------------------------------------------------
  // what is spoken

  /** The role the hint is chosen by: the `role` attribute when set, else the
      lower-case tag name. */
  function RoleOf(e: Element): string {
    if Truthy(e.role) then e.role.value else ToLower(e.tagName)
  }

  /** `/^h[1-6]$/`. */
  predicate IsHeadingTag(t: string) {
    |t| == 2 && t[0] == 'h' && '1' <= t[1] <= '6'
  }

  predicate ButtonLike(e: Element) {
    RoleOf(e) == "button" || e.tagName == "BUTTON" || e.clickableClass
  }

  predicate LinkLike(e: Element) {
    RoleOf(e) == "link" || e.tagName == "A"
  }

  predicate ImageLike(e: Element) {
    RoleOf(e) == "img" || e.tagName == "IMG"
  }

  predicate HeadingLike(e: Element) {
    RoleOf(e) == "heading" || IsHeadingTag(ToLower(e.tagName))
  }

  const TextFieldHint: string := "Text Field, Double tap to edit"

  /** The role hint, by priority: button, link, text field, image, heading,
      else none. */
  function Hint(e: Element): (h: string)
    ensures h == "Button" <==> ButtonLike(e)
    ensures h == "Link" <==> !ButtonLike(e) && LinkLike(e)
    ensures h == TextFieldHint <==> !ButtonLike(e) && !LinkLike(e) && e.tagName == "INPUT"
    ensures h == "Image" <==> !ButtonLike(e) && !LinkLike(e) && e.tagName != "INPUT" && ImageLike(e)
    ensures h == "Heading" <==> !ButtonLike(e) && !LinkLike(e) && e.tagName != "INPUT" && !ImageLike(e) && HeadingLike(e)
    ensures h == "" <==> !ButtonLike(e) && !LinkLike(e) && e.tagName != "INPUT" && !ImageLike(e) && !HeadingLike(e)
  {
    if ButtonLike(e) then "Button"
    else if LinkLike(e) then "Link"
    else if e.tagName == "INPUT" then TextFieldHint
    else if ImageLike(e) then "Image"
    else if HeadingLike(e) then "Heading"
    else ""
  }

  /** The text read out: the aria-label, else the alt text, else the inner
      text (each only when non-empty). */
  function Label(e: Element): (t: string)
    ensures Truthy(e.ariaLabel) ==> t == e.ariaLabel.value
    ensures !Truthy(e.ariaLabel) && Truthy(e.alt) ==> t == e.alt.value
    ensures !Truthy(e.ariaLabel) && !Truthy(e.alt) ==> t == e.innerText
  {
    if Truthy(e.ariaLabel) then e.ariaLabel.value
    else if Truthy(e.alt) then e.alt.value
    else e.innerText
  }

  /** The utterance for a selected element. */
  function Utterance(e: Element): string {
    var text := Label(e);
    var hint := Hint(e);
    if !IsBlank(text) then Take(NewlinesToSpaces(text), MaxSpokenChars) + ". " + hint
    else if hint != "" then hint
    else "Element"
  }

  /** With a non-blank label the utterance is the label, newlines turned to
      spaces and cut to 150 characters, then `. ` and the hint; with a blank
      one it is the hint, or "Element" when there is none. It is never
      empty. */
  lemma UtteranceShape(e: Element)
    ensures !IsBlank(Label(e)) ==>
              var spoken := Take(NewlinesToSpaces(Label(e)), MaxSpokenChars);
              Utterance(e) == spoken + ". " + Hint(e)
              && |spoken| <= MaxSpokenChars && '\n' !in spoken
              && |spoken| == |Take(Label(e), MaxSpokenChars)|
              && (forall k :: 0 <= k < |spoken| ==> spoken[k] == (if Label(e)[k] == '\n' then ' ' else Label(e)[k]))
    ensures IsBlank(Label(e)) ==> Utterance(e) == (if Hint(e) != "" then Hint(e) else "Element")
    ensures Utterance(e) != ""
  {
    if !IsBlank(Label(e)) {
      var spoken := Take(NewlinesToSpaces(Label(e)), MaxSpokenChars);
      assert '\n' !in spoken by {
        forall k | 0 <= k < |spoken| ensures spoken[k] != '\n' {
          assert spoken[k] == NewlinesToSpaces(Label(e))[k];
        }
      }
    }
  }

  /** A click on the active element is a double tap only within 500ms of the
      last selecting click. */
  predicate IsDoubleTap(activeId: Option<nat>, lastClickTime: int, e: Element, now: int) {
    activeId == Some(e.id) && now - lastClickTime < DoubleTapMs
  }

  // ---------------------------------------------------------------------------
  // the component

  /** The simulation. `highlight` is the element the highlight box is drawn
      around; `activeId` and `lastClickTime` are the refs of the two-click
      rule; `isSimulating` marks a synthetic click in flight. `spoken` lists
      the utterances started, `speechCancels` counts cancellations, and
      `delivered` lists the element clicks that reached the page. */
  class VoiceOver {
    var enabled: bool
    var highlight: Option<nat>
    var activeId: Option<nat>
    var lastClickTime: int
    var isSimulating: bool
    var spoken: seq<string>
    var speechCancels: nat
    var delivered: seq<nat>

    /** Between events no synthetic click is in flight, and a highlight is only
        drawn, for the active element, while the simulation is on. */
    ghost predicate Valid()
      reads this
    {
      !isSimulating
      && (highlight.Some? ==> enabled && highlight == activeId)
      && (!enabled ==> activeId.None?)
    }

    /** Mounting runs the effect once with the simulation off, which cancels
        any speech. */
    constructor ()
      ensures Valid()
      ensures !enabled && highlight.None? && activeId.None? && lastClickTime == 0
      ensures spoken == [] && speechCancels == 1 && delivered == []
    {
      enabled := false;
      highlight := None;
      activeId := None;
      lastClickTime := 0;
      isSimulating := false;
      spoken := [];
      speechCancels := 1;
      delivered := [];
    }

    /** `handleClick`, the capture listener installed while the simulation is
        on. A synthetic click passes through once and clears the flag; a click
        in the toggle passes through; otherwise the click is intercepted and,
        on a meaningful element, either activates it (double tap) or selects
        and speaks it. */
    method HandleClick(c: Click) returns (passes: bool)
      requires enabled && (highlight.Some? ==> highlight == activeId)
      modifies this
      decreases if isSimulating then 0 else 1
      ensures enabled && !isSimulating && (highlight.Some? ==> highlight == activeId)
      ensures old(isSimulating) || c.inToggle ==>
                passes && highlight == old(highlight) && activeId == old(activeId) && lastClickTime == old(lastClickTime)
                && spoken == old(spoken) && delivered == old(delivered) && speechCancels == old(speechCancels)
      ensures !old(isSimulating) && !c.inToggle ==> !passes
      ensures !old(isSimulating) && !c.inToggle && c.interactive.None? ==>
                highlight == old(highlight) && activeId == old(activeId) && lastClickTime == old(lastClickTime)
                && spoken == old(spoken) && delivered == old(delivered) && speechCancels == old(speechCancels)
      ensures !old(isSimulating) && !c.inToggle && c.interactive.Some?
              && IsDoubleTap(old(activeId), old(lastClickTime), c.interactive.value, c.now) ==>
                delivered == old(delivered) + [c.interactive.value.id] && lastClickTime == 0 && highlight.None?
                && activeId == old(activeId) && spoken == old(spoken) && speechCancels == old(speechCancels)
      ensures !old(isSimulating) && !c.inToggle && c.interactive.Some?
              && !IsDoubleTap(old(activeId), old(lastClickTime), c.interactive.value, c.now) ==>
                activeId == Some(c.interactive.value.id) && lastClickTime == c.now
                && highlight == Some(c.interactive.value.id) && speechCancels == old(speechCancels) + 1
                && spoken == old(spoken) + [Utterance(c.interactive.value)] && delivered == old(delivered)
    {
      if isSimulating {
        isSimulating := false;
        return true;
      }
      if c.inToggle {
        return true;
      }
      if c.interactive.None? {
        return false;
      }
      var el := c.interactive.value;
      var isDoubleTap := activeId == Some(el.id) && c.now - lastClickTime < DoubleTapMs;
      if isDoubleTap {
        isSimulating := true;
        var synthetic := HandleClick(Click(el.id, false, Some(el), c.now));
        delivered := delivered + [el.id];
        lastClickTime := 0;
        highlight := None;
      } else {
        activeId := Some(el.id);
        lastClickTime := c.now;
        highlight := Some(el.id);
        speechCancels := speechCancels + 1;
        spoken := spoken + [Utterance(el)];
      }
      return false;
    }

    /** A user click anywhere. With the simulation off it reaches the page
        (or the toggle, which turns the simulation on); with it on it goes
        through `handleClick` first. */
    method UserClick(c: Click)
      requires Valid()
      modifies this
      ensures Valid()
      ensures !old(enabled) && !c.inToggle ==> delivered == old(delivered) + [c.targetId] && spoken == old(spoken)
      ensures !old(enabled) && c.inToggle ==>
                enabled && highlight == old(highlight) && activeId == old(activeId) && lastClickTime == old(lastClickTime)
                && spoken == old(spoken) && delivered == old(delivered) && speechCancels == old(speechCancels)
      ensures old(enabled) && c.inToggle ==>
                !enabled && highlight.None? && activeId.None? && speechCancels == old(speechCancels) + 1
                && spoken == old(spoken) && delivered == old(delivered)
      ensures old(enabled) && !c.inToggle ==> enabled
      ensures old(enabled) && !c.inToggle && c.interactive.None? ==>
                highlight == old(highlight) && activeId == old(activeId) && lastClickTime == old(lastClickTime)
                && spoken == old(spoken) && delivered == old(delivered) && speechCancels == old(speechCancels)
      ensures old(enabled) && !c.inToggle && c.interactive.Some?
              && IsDoubleTap(old(activeId), old(lastClickTime), c.interactive.value, c.now) ==>
                delivered == old(delivered) + [c.interactive.value.id] && lastClickTime == 0 && highlight.None?
                && activeId == old(activeId) && spoken == old(spoken) && speechCancels == old(speechCancels)
      ensures old(enabled) && !c.inToggle && c.interactive.Some?
              && !IsDoubleTap(old(activeId), old(lastClickTime), c.interactive.value, c.now) ==>
                activeId == Some(c.interactive.value.id) && lastClickTime == c.now
                && highlight == Some(c.interactive.value.id) && speechCancels == old(speechCancels) + 1
                && spoken == old(spoken) + [Utterance(c.interactive.value)] && delivered == old(delivered)
    {
      if !enabled {
        if c.inToggle {
          Toggle();
        } else {
          delivered := delivered + [c.targetId];
        }
      } else {
        var passes := HandleClick(c);
        if passes {
          Toggle();
        }
      }
    }

    /** The toggle's own click handler, followed by the effect: turning off
        clears the highlight and the active element and cancels speech. */
    method Toggle()
      requires !isSimulating && (highlight.Some? ==> enabled && highlight == activeId)
      requires !enabled ==> activeId.None?
      modifies this
      ensures Valid()
      ensures enabled == !old(enabled)
      ensures !enabled ==> highlight.None? && activeId.None? && speechCancels == old(speechCancels) + 1
      ensures enabled ==> highlight == old(highlight) && activeId == old(activeId) && speechCancels == old(speechCancels)
      ensures lastClickTime == old(lastClickTime) && spoken == old(spoken) && delivered == old(delivered)
    {
      enabled := !enabled;
      if !enabled {
        highlight := None;
        activeId := None;
        speechCancels := speechCancels + 1;
      }
    }

    /** Scrolling redraws the highlight around the active element, which
        brings it back after an activation cleared it. */
    method Scroll()
      requires Valid()
      modifies this
      ensures Valid()
      ensures enabled && activeId.Some? ==> highlight == activeId
      ensures !(enabled && activeId.Some?) ==> highlight == old(highlight)
      ensures enabled == old(enabled) && activeId == old(activeId) && lastClickTime == old(lastClickTime)
      ensures spoken == old(spoken) && delivered == old(delivered) && speechCancels == old(speechCancels)
    {
      if enabled && activeId.Some? {
        highlight := activeId;
      }
    }
  }

  /** Two quick clicks activate an element exactly once: the first speaks it,
      the second delivers one click to it. The activation resets the clock to
      0, so no later click (at a timestamp of 500 or more) counts as a
      double tap: it selects again. */
  method DoubleTapActivatesOnce(e: Element, t: int) returns (v: VoiceOver)
    requires t >= DoubleTapMs
    ensures v.delivered == [e.id] && v.spoken == [Utterance(e)]
    ensures v.activeId == Some(e.id) && v.highlight.None? && v.lastClickTime == 0
    ensures forall now :: now >= DoubleTapMs ==> !IsDoubleTap(v.activeId, v.lastClickTime, e, now)
  {
    v := new VoiceOver();
    v.UserClick(Click(0, true, None, 0));
    v.UserClick(Click(e.id, false, Some(e), t));
    v.UserClick(Click(e.id, false, Some(e), t + 100));
  }
}
