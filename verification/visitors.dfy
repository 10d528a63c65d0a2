/** The visitor log (components/VisitorList.tsx) and the welcome form that
    feeds it (components/VisitorEntry.tsx). The clock reading that becomes
    the id and today's formatted date are parameters. */
module Visitors {
  import opened Seqs
  import opened Strings
  import opened Records
  import opened AppState

  /** Name and village are searched ignoring case; the mobile number is
      searched for the term exactly as typed. */
  predicate VisitorMatches(v: Visitor, term: string) {
    || ContainsIgnoringCase(v.name, term)
    || ContainsIgnoringCase(v.village, term)
    || Contains(v.mobile, term)
  }

  /** `filteredVisitors` */
  function FilteredVisitors(vs: seq<Visitor>, term: string): (r: seq<Visitor>)
    ensures forall v :: v in r <==> v in vs && VisitorMatches(v, term)
    ensures IsSubsequence(r, vs)
    ensures forall v :: multiset(r)[v] == if VisitorMatches(v, term) then multiset(vs)[v] else 0
  {
    FilterMultiplicity(vs, (v: Visitor) => VisitorMatches(v, term));
    Filter(vs, (v: Visitor) => VisitorMatches(v, term))
  }

  /** An empty term lists every visitor, in order. */
  lemma EmptyTermKeepsAllVisitors(vs: seq<Visitor>)
    ensures FilteredVisitors(vs, "") == vs
  {
    forall v: Visitor
      ensures VisitorMatches(v, "")
    {
      ContainsIgnoringCaseNarrows(v.name, "", "");
    }
    FilterAll(vs, (v: Visitor) => VisitorMatches(v, ""));
  }

  /** Typing more never brings a visitor back. */
  lemma LongerTermNarrowsVisitors(vs: seq<Visitor>, q: string, e: string)
    ensures IsSubsequence(FilteredVisitors(vs, q + e), FilteredVisitors(vs, q))
  {
    forall v: Visitor | VisitorMatches(v, q + e)
      ensures VisitorMatches(v, q)
    {
      ContainsIgnoringCaseNarrows(v.name, q, e);
      ContainsIgnoringCaseNarrows(v.village, q, e);
      if Contains(v.mobile, q + e) {
        ContainsLongerQuery(v.mobile, q, e);
      }
    }
    FilterMonotone(vs, (v: Visitor) => VisitorMatches(v, q + e), (v: Visitor) => VisitorMatches(v, q));
  }

  // ---------------------------------------------------------------------
  // The welcome form
  // ---------------------------------------------------------------------

  datatype EntryForm = EntryForm(name: string, mobile: string, village: string)

  /** What a button of the form hands to the application. */
  datatype EntryEvent = Submitted(visitor: Visitor) | Closed | NoEvent

  /** `handleSubmit`: a visitor record only when all three fields are
      non-empty, the fields copied as typed. The ten-digit pattern on the
      mobile field is a browser attribute, not part of this check. */
  function SubmitEntry(form: EntryForm, now: nat, today: string): (r: EntryEvent)
    ensures r.Submitted? <==> form.name != "" && form.mobile != "" && form.village != ""
    ensures r.Submitted? ==>
      && r.visitor.name == form.name && r.visitor.mobile == form.mobile && r.visitor.village == form.village
      && r.visitor.id == NatToString(now) && r.visitor.date == today
    ensures !r.Closed?
  {
    if form.name != "" && form.mobile != "" && form.village != "" then
      Submitted(Visitor(NatToString(now), form.name, form.mobile, form.village, today))
    else NoEvent
  }

  /** Any non-empty mobile text is accepted, digits or not. */
  lemma AnyMobileAccepted(now: nat, today: string)
    ensures SubmitEntry(EntryForm("Ram", "call me", "Keliweli"), now, today).Submitted?
  {
  }

  /** A submitted visitor is recorded first in the log and can be found
      there again by the mobile number as entered. */
  lemma SubmittedVisitorFound(s: Flags, form: EntryForm, now: nat, today: string)
    requires SubmitEntry(form, now, today).Submitted?
    ensures var v := SubmitEntry(form, now, today).visitor;
      var t := VisitorSubmit(s, v);
      && t.visitors[0] == v
      && v in FilteredVisitors(t.visitors, form.mobile)
  {
    var v := SubmitEntry(form, now, today).visitor;
    assert StartsWith(v.mobile, form.mobile);
    assert v in VisitorSubmit(s, v).visitors;
  }

  // ---------------------------------------------------------------------
  // The pop-up in the application
  // ---------------------------------------------------------------------

  /** How the application answers the form (App.tsx): a submitted visitor
      goes through `handleVisitorSubmit`, closing only hides the pop-up, and
      a press that produced nothing changes nothing. */
  function HandleEntryEvent(s: Flags, ev: EntryEvent): (t: Flags)
    ensures ev.Submitted? ==> t == VisitorSubmit(s, ev.visitor)
    ensures ev.Closed? ==> !t.showVisitorPopup && t.(showVisitorPopup := s.showVisitorPopup) == s
    ensures ev.NoEvent? ==> t == s
  {
    match ev
    case Submitted(v) => VisitorSubmit(s, v)
    case Closed => s.(showVisitorPopup := false)
    case NoEvent => s
  }

  /** The load-time check: the pop-up is scheduled for someone who has
      neither entered details before nor signed in. */
  predicate PopupDue(s: Flags, signedIn: bool) {
    !s.hasVisited && !signedIn
  }

  /** Skipping (the Skip button raises `Closed`, whatever was typed) hides
      the pop-up for now without recording anything, so it is still due the
      next time the page loads. */
  lemma SkipComesBack(s: Flags, signedIn: bool)
    ensures var t := HandleEntryEvent(s, Closed);
      && !t.showVisitorPopup
      && t.visitors == s.visitors
      && PopupDue(t, signedIn) == PopupDue(s, signedIn)
  {
  }

  /** A complete form records the visitor, hides the pop-up and stops it
      from being scheduled again; an incomplete one leaves it open and
      records nothing. */
  lemma SubmitNotAskedAgain(s: Flags, form: EntryForm, now: nat, today: string, signedIn: bool)
    ensures var ev := SubmitEntry(form, now, today);
      var t := HandleEntryEvent(s, ev);
      && (ev.Submitted? ==> !t.showVisitorPopup && !PopupDue(t, signedIn) && |t.visitors| == |s.visitors| + 1)
      && (!ev.Submitted? ==> t == s)
  {
  }
}
