/** The last step of the appointment flow: the contractors in the visitor's
    area who offer the chosen service, optional per-contractor consent to be
    contacted directly, contact preferences, and the submit that posts the
    appointment request and always completes the flow. */
module AppointmentContractors {
  import opened Common
  import opened AppContext

  // ---------------------------------------------------------------------
  // The list of contractors

  /** `contractor.services.includes(selectedService)` plus the area test. */
  predicate Eligible(c: Contractor, service: int, zip: Option<string>, state: Option<string>) {
    service in c.services && InArea(c, zip, state)
  }

  /** The matching effect: the eligible directory entries, in directory order,
      each with its consent flag cleared. */
  function FilterContractors(directory: seq<Contractor>, service: int, zip: Option<string>,
                             state: Option<string>): (r: seq<Contractor>)
    ensures |r| <= |directory|
  {
    if directory == [] then []
    else
      (if Eligible(directory[0], service, zip, state) then [directory[0].(optIn := false)] else [])
      + FilterContractors(directory[1..], service, zip, state)
  }

  /** Everything listed comes from an eligible directory entry. */
  lemma {:induction false} FilterContractorsSound(directory: seq<Contractor>, service: int,
                                                  zip: Option<string>, state: Option<string>, c: Contractor)
    requires c in FilterContractors(directory, service, zip, state)
    ensures exists d :: d in directory && Eligible(d, service, zip, state) && c == d.(optIn := false)
  {
    var d := directory[0];
    if !(Eligible(d, service, zip, state) && c == d.(optIn := false)) {
      FilterContractorsSound(directory[1..], service, zip, state, c);
      var e :| e in directory[1..] && Eligible(e, service, zip, state) && c == e.(optIn := false);
      assert e in directory;
    }
  }

  /** Every eligible directory entry is listed. */
  lemma {:induction false} FilterContractorsComplete(directory: seq<Contractor>, service: int,
                                                     zip: Option<string>, state: Option<string>, d: Contractor)
    requires d in directory && Eligible(d, service, zip, state)
    ensures d.(optIn := false) in FilterContractors(directory, service, zip, state)
  {
    if d != directory[0] {
      assert d in directory[1..];
      FilterContractorsComplete(directory[1..], service, zip, state, d);
    }
  }

  /** A directory entry is listed iff it offers the service and its zip and
      state equal the visitor's. */
  lemma FilterContractorsMembership(directory: seq<Contractor>, service: int,
                                    zip: Option<string>, state: Option<string>, d: Contractor)
    requires d in directory
    ensures d.(optIn := false) in FilterContractors(directory, service, zip, state)
            <==> service in d.services && InArea(d, zip, state)
  {
    if d.(optIn := false) in FilterContractors(directory, service, zip, state) {
      FilterContractorsSound(directory, service, zip, state, d.(optIn := false));
    } else if Eligible(d, service, zip, state) {
      FilterContractorsComplete(directory, service, zip, state, d);
    }
  }

  /** The list follows the directory's order: filtering a concatenation is
      the concatenation of the filtered parts. */
  lemma {:induction false} FilterContractorsConcat(a: seq<Contractor>, b: seq<Contractor>, service: int,
                                                   zip: Option<string>, state: Option<string>)
    ensures FilterContractors(a + b, service, zip, state)
            == FilterContractors(a, service, zip, state) + FilterContractors(b, service, zip, state)
  {
    if a == [] {
      assert a + b == b;
    } else {
      var head := if Eligible(a[0], service, zip, state) then [a[0].(optIn := false)] else [];
      assert (a + b)[0] == a[0];
      assert (a + b)[1..] == a[1..] + b;
      calc {
        FilterContractors(a + b, service, zip, state);
        head + FilterContractors(a[1..] + b, service, zip, state);
        { FilterContractorsConcat(a[1..], b, service, zip, state); }
        head + (FilterContractors(a[1..], service, zip, state) + FilterContractors(b, service, zip, state));
        (head + FilterContractors(a[1..], service, zip, state)) + FilterContractors(b, service, zip, state);
        FilterContractors(a, service, zip, state) + FilterContractors(b, service, zip, state);
      }
    }
  }

  /** A directory with distinct ids yields a list with distinct ids. */
  lemma {:induction false} FilterContractorsDistinct(directory: seq<Contractor>, service: int,
                                                     zip: Option<string>, state: Option<string>)
    requires DistinctIds(directory)
    ensures DistinctIds(FilterContractors(directory, service, zip, state))
  {
    if directory != [] {
      var tail := directory[1..];
      DistinctIdsTail(directory);
      FilterContractorsDistinct(tail, service, zip, state);
      var rest := FilterContractors(tail, service, zip, state);
      if Eligible(directory[0], service, zip, state) {
        HeadIdFresh(directory);
        forall c | c in rest ensures c.id != directory[0].id {
          FilterContractorsSound(tail, service, zip, state, c);
        }
        PrependKeepsDistinctIds(directory[0].(optIn := false), rest);
      }
    }
  }

  /** With distinct ids, no later record shares the first one's id. */
  lemma HeadIdFresh(cs: seq<Contractor>)
    requires cs != [] && DistinctIds(cs)
    ensures forall d :: d in cs[1..] ==> d.id != cs[0].id
  {
    forall d | d in cs[1..] ensures d.id != cs[0].id {
      var k :| 0 <= k < |cs[1..]| && cs[1..][k] == d;
      assert cs[k + 1] == d;
    }
  }

  /** Prepending a record of a new id keeps the ids distinct. */
  lemma PrependKeepsDistinctIds(c: Contractor, rest: seq<Contractor>)
    requires DistinctIds(rest) && forall d :: d in rest ==> d.id != c.id
    ensures DistinctIds([c] + rest)
  {
    var r := [c] + rest;
    forall i, j | 0 <= i < |r| && 0 <= j < |r| && r[i].id == r[j].id ensures i == j {
      if i > 0 { assert r[i] == rest[i - 1]; }
      if j > 0 { assert r[j] == rest[j - 1]; }
    }
  }

  // ---------------------------------------------------------------------
  // Consent

  /** `matching.map(c => c.id === id ? {...c, optIn: checked} : c)`. */
  function SetOptIn(matching: seq<Contractor>, id: int, checked: bool): (r: seq<Contractor>)
    ensures |r| == |matching|
    ensures forall i :: 0 <= i < |matching| ==>
              r[i] == if matching[i].id == id then matching[i].(optIn := checked) else matching[i]
    ensures Ids(r) == Ids(matching)
  {
    seq(|matching|, i requires 0 <= i < |matching| =>
      if matching[i].id == id then matching[i].(optIn := checked) else matching[i])
  }

  /** `matching.map(c => ({...c, optIn: false}))`. */
  function ClearOptIns(matching: seq<Contractor>): (r: seq<Contractor>)
    ensures |r| == |matching| && Ids(r) == Ids(matching)
    ensures forall i :: 0 <= i < |matching| ==> r[i] == matching[i].(optIn := false)
  {
    seq(|matching|, i requires 0 <= i < |matching| => matching[i].(optIn := false))
  }

  /** `cs.find(c => c.id === id)`: the first record with that id, if any. */
  function FindById(cs: seq<Contractor>, id: int): (r: Option<Contractor>)
    ensures r.Some? ==> r.value in cs && r.value.id == id
    ensures r.None? <==> forall c :: c in cs ==> c.id != id
  {
    if cs == [] then None
    else if cs[0].id == id then Some(cs[0])
    else
      assert forall c :: c in cs ==> c == cs[0] || c in cs[1..];
      FindById(cs[1..], id)
  }

  /** `cs.filter(c => c.id !== id)`: the other records, in their order. */
  function RemoveById(cs: seq<Contractor>, id: int): (r: seq<Contractor>)
    ensures forall c :: c in r <==> c in cs && c.id != id
    ensures IsSubsequence(r, cs)
  {
    if cs == [] then []
    else
      var rest := RemoveById(cs[1..], id);
      assert forall c :: c in cs <==> c == cs[0] || c in cs[1..];
      if cs[0].id == id then
        assert rest != [] ==> rest[0] in rest && rest[0] != cs[0];
        rest
      else
        assert ([cs[0]] + rest)[1..] == rest;
        [cs[0]] + rest
  }

  /** Removing a contractor keeps the ids distinct. */
  lemma {:induction false} RemoveByIdDistinct(cs: seq<Contractor>, id: int)
    requires DistinctIds(cs)
    ensures DistinctIds(RemoveById(cs, id))
  {
    if cs != [] {
      DistinctIdsTail(cs);
      RemoveByIdDistinct(cs[1..], id);
      var rest := RemoveById(cs[1..], id);
      if cs[0].id != id {
        HeadIdFresh(cs);
        PrependKeepsDistinctIds(cs[0], rest);
      }
    }
  }

  /** The consent list after a contractor's checkbox: on tick, the updated
      record is appended (when the id is known); on untick, every record with
      that id is dropped. */
  function ConsentedAfterOptIn(updated: seq<Contractor>, consented: seq<Contractor>,
                               id: int, checked: bool): (r: seq<Contractor>)
    ensures checked && FindById(updated, id).None? ==> r == consented
    ensures checked && FindById(updated, id).Some? ==> r == consented + [FindById(updated, id).value]
    ensures !checked ==> forall c :: c in r <==> c in consented && c.id != id
    ensures !checked ==> IsSubsequence(r, consented)
  {
    if checked then
      match FindById(updated, id)
      case Some(c) => consented + [c]
      case None => consented
    else RemoveById(consented, id)
  }

  /** The consent list is exactly the ticked contractors of the list, one
      record per id. */
  ghost predicate ConsentInvariant(matching: seq<Contractor>, consented: seq<Contractor>) {
    DistinctIds(consented)
    && (forall c :: c in consented ==> c in matching && c.optIn)
    && (forall c :: c in matching && c.optIn ==> c in consented)
  }

  /** A freshly loaded list starts with no consent. */
  lemma LoadedListHasNoConsent(directory: seq<Contractor>, service: int, zip: Option<string>, state: Option<string>)
    ensures ConsentInvariant(FilterContractors(directory, service, zip, state), [])
  {
    forall c | c in FilterContractors(directory, service, zip, state) ensures !c.optIn {
      FilterContractorsSound(directory, service, zip, state, c);
    }
  }

  lemma SetOptInKeepsDistinctIds(matching: seq<Contractor>, id: int, checked: bool)
    requires DistinctIds(matching)
    ensures DistinctIds(SetOptIn(matching, id, checked))
  {
    var updated := SetOptIn(matching, id, checked);
    forall i, j | 0 <= i < |updated| && 0 <= j < |updated| && updated[i].id == updated[j].id ensures i == j {
      assert updated[i].id == matching[i].id && updated[j].id == matching[j].id;
    }
  }

  /** Records of other ids are the same before and after the update. */
  lemma SetOptInKeepsOthers(matching: seq<Contractor>, id: int, checked: bool, c: Contractor)
    requires c.id != id
    ensures c in matching <==> c in SetOptIn(matching, id, checked)
  {
    var updated := SetOptIn(matching, id, checked);
    if c in matching {
      var i :| 0 <= i < |matching| && matching[i] == c;
      assert updated[i] == c;
    }
    if c in updated {
      var i :| 0 <= i < |updated| && updated[i] == c;
      assert matching[i] == c;
    }
  }

  /** Every record with the id carries the new flag. */
  lemma SetOptInSetsFlag(matching: seq<Contractor>, id: int, checked: bool, c: Contractor)
    requires c in SetOptIn(matching, id, checked) && c.id == id
    ensures c.optIn == checked
  {
    var updated := SetOptIn(matching, id, checked);
    var i :| 0 <= i < |updated| && updated[i] == c;
  }

  /** Ticking an unticked contractor appends its updated record, so the
      consent list stays equal to the ticked contractors. */
  lemma TickKeepsConsentInvariant(matching: seq<Contractor>, consented: seq<Contractor>, id: int)
    requires DistinctIds(matching) && ConsentInvariant(matching, consented)
    requires forall c :: c in matching && c.id == id ==> !c.optIn
    ensures ConsentInvariant(SetOptIn(matching, id, true),
                             ConsentedAfterOptIn(SetOptIn(matching, id, true), consented, id, true))
  {
    var updated := SetOptIn(matching, id, true);
    SetOptInKeepsDistinctIds(matching, id, true);
    assert forall c :: c in consented ==> c.id != id;
    forall c | c in consented ensures c in updated {
      SetOptInKeepsOthers(matching, id, true, c);
    }
    match FindById(updated, id)
    case None =>
      forall c | c in updated && c.optIn ensures c in consented {
        SetOptInKeepsOthers(matching, id, true, c);
      }
    case Some(n) =>
      var after := consented + [n];
      forall c | c in updated && c.optIn ensures c in after {
        if c.id == id {
          SameIdSameContractor(updated, c, n);
        } else {
          SetOptInKeepsOthers(matching, id, true, c);
        }
      }
      SetOptInSetsFlag(matching, id, true, n);
      AppendKeepsDistinctIds(consented, n);
  }

  /** Appending a record of a new id keeps the ids distinct. */
  lemma AppendKeepsDistinctIds(consented: seq<Contractor>, n: Contractor)
    requires DistinctIds(consented) && forall c :: c in consented ==> c.id != n.id
    ensures DistinctIds(consented + [n])
  {
    var after := consented + [n];
    forall a, b | 0 <= a < |after| && 0 <= b < |after| && after[a].id == after[b].id ensures a == b {
      if a < |consented| { assert after[a] == consented[a] && consented[a] in consented; }
      if b < |consented| { assert after[b] == consented[b] && consented[b] in consented; }
    }
  }

  /** Unticking a contractor drops its record, so the consent list stays
      equal to the ticked contractors. */
  lemma UntickKeepsConsentInvariant(matching: seq<Contractor>, consented: seq<Contractor>, id: int)
    requires ConsentInvariant(matching, consented)
    ensures ConsentInvariant(SetOptIn(matching, id, false),
                             ConsentedAfterOptIn(SetOptIn(matching, id, false), consented, id, false))
  {
    var updated := SetOptIn(matching, id, false);
    var after := ConsentedAfterOptIn(updated, consented, id, false);
    RemoveByIdDistinct(consented, id);
    forall c | c in after ensures c in updated && c.optIn {
      SetOptInKeepsOthers(matching, id, false, c);
    }
    forall c | c in updated && c.optIn ensures c in after {
      if c.id == id {
        SetOptInSetsFlag(matching, id, false, c);
      } else {
        SetOptInKeepsOthers(matching, id, false, c);
      }
    }
  }

  /** Either checkbox event that the list can raise (the checkbox shows the
      record's current flag and reports its negation) keeps the invariant. */
  lemma OptInKeepsConsentInvariant(matching: seq<Contractor>, consented: seq<Contractor>, id: int, checked: bool)
    requires DistinctIds(matching) && ConsentInvariant(matching, consented)
    requires forall c :: c in matching && c.id == id ==> c.optIn != checked
    ensures DistinctIds(SetOptIn(matching, id, checked))
    ensures ConsentInvariant(SetOptIn(matching, id, checked),
                             ConsentedAfterOptIn(SetOptIn(matching, id, checked), consented, id, checked))
  {
    SetOptInKeepsDistinctIds(matching, id, checked);
    if checked {
      TickKeepsConsentInvariant(matching, consented, id);
    } else {
      UntickKeepsConsentInvariant(matching, consented, id);
    }
  }

  /** A checkbox event for an id that is not listed changes neither list. */
  lemma UnknownIdChangesNothing(matching: seq<Contractor>, consented: seq<Contractor>, id: int, checked: bool)
    requires id !in Ids(matching)
    ensures SetOptIn(matching, id, checked) == matching
    ensures checked ==> ConsentedAfterOptIn(SetOptIn(matching, id, checked), consented, id, checked) == consented
  {
    var updated := SetOptIn(matching, id, checked);
    forall i | 0 <= i < |matching| ensures updated[i] == matching[i] {
      assert Ids(matching)[i] == matching[i].id;
    }
  }

  /** Turning "contact me directly" off leaves no consent at all. */
  lemma ContactDirectlyOffClearsConsent(matching: seq<Contractor>)
    ensures ConsentInvariant(ClearOptIns(matching), [])
  {
  }

  /** `checked ? [...prefs, value] : prefs.filter(p => p !== value)`. */
  function PreferencesAfterChange(prefs: seq<string>, value: string, checked: bool): (r: seq<string>)
    ensures checked ==> r == prefs + [value]
    ensures !checked ==> forall p :: p in r <==> p in prefs && p != value
    ensures !checked ==> IsSubsequence(r, prefs)
  {
    if checked then prefs + [value] else RemoveAll(prefs, value)
  }

  // ---------------------------------------------------------------------
  // What is shown and sent

  datatype Heading = NoContractors | OnlyAvailable(count: nat) | AllMatching

  /** The heading: none available, fewer than the quotes asked for (with the
      count), or the full list. */
  function HeadingFor(count: nat, numberOfQuotes: int): (h: Heading)
    ensures h == NoContractors <==> count == 0
    ensures h.OnlyAvailable? <==> 0 < count < numberOfQuotes
    ensures h.OnlyAvailable? ==> h.count == count
    ensures h == AllMatching <==> count > 0 && count >= numberOfQuotes
  {
    if count == 0 then NoContractors
    else if count < numberOfQuotes then OnlyAvailable(count)
    else AllMatching
  }

  /** The one-to-one consent block of the posted payload. */
  datatype OneToOne = OneToOne(consentedContractors: seq<Contractor>, contactPreferences: seq<string>)

  /** The block as posted: it is built from the values of the render in which
      the submit ran, so the clearing of the preferences that precedes it
      does not reach it. */
  function SentConsentAsWritten(consented: seq<Contractor>, prefs: seq<string>): (r: OneToOne)
    ensures r.consentedContractors == consented && r.contactPreferences == prefs
  {
    OneToOne(consented, prefs)
  }

  /** The block the clearing is evidently meant to produce: no preferences
      without a consented contractor. */
  function SentConsent(consented: seq<Contractor>, prefs: seq<string>): (r: OneToOne)
    ensures r.consentedContractors == consented
    ensures consented == [] ==> r.contactPreferences == []
    ensures consented != [] ==> r.contactPreferences == prefs
  {
    OneToOne(consented, if consented == [] then [] else prefs)
  }

  /** Tick a contractor, pick "sms", untick the contractor, submit: the posted
      block carries a preference and no contractor. */
  lemma StalePreferencesAreSent()
    ensures SentConsentAsWritten([], ["sms"]).contactPreferences == ["sms"]
    ensures SentConsent([], ["sms"]).contactPreferences == []
  {
  }

  /** For every input with no consented contractor and some preference, the
      posted block carries preferences without a contractor. */
  lemma AsWrittenLeaksPreferences(consented: seq<Contractor>, prefs: seq<string>)
    requires consented == [] && prefs != []
    ensures SentConsentAsWritten(consented, prefs).consentedContractors == []
    ensures SentConsentAsWritten(consented, prefs).contactPreferences != []
    ensures SentConsentAsWritten(consented, prefs) != SentConsent(consented, prefs)
  {
  }

  /** With a consented contractor the posted block is the intended one; the
      two differ exactly when nothing is consented and a preference is set. */
  lemma AsWrittenDiffersOnlyWithoutContractor(consented: seq<Contractor>, prefs: seq<string>)
    ensures SentConsentAsWritten(consented, prefs) != SentConsent(consented, prefs)
            <==> consented == [] && prefs != []
  {
  }

  /** The intended block never carries preferences without a contractor. */
  lemma SentConsentNeedsContractor(consented: seq<Contractor>, prefs: seq<string>)
    ensures SentConsent(consented, prefs).contactPreferences != [] ==> SentConsent(consented, prefs).consentedContractors != []
  {
  }

  /** The error banner after the post: unchanged on success, the thrown
      message otherwise. */
  function ErrorAfter(previous: Option<string>, delivery: Delivery): (r: Option<string>)
    ensures delivery == Delivered ==> r == previous
    ensures delivery == Rejected ==> r == Some("Failed to send appointments")
    ensures delivery.NetworkFailure? ==> r == Some(delivery.message)
  {
    match delivery
    case Delivered => previous
    case Rejected => Some("Failed to send appointments")
    case NetworkFailure(message) => Some(message)
  }

  class ContractorsStep {
    var error: Option<string>
    var contactDirectly: bool
    var contactPreferences: seq<string>
    var loading: bool

    constructor()
      ensures error.None? && !contactDirectly && contactPreferences == [] && loading
    {
      error := None;
      contactDirectly := false;
      contactPreferences := [];
      loading := true;
    }

    /** The timer's callback ends the loading message. */
    method FinishLoading()
      modifies this`loading
      ensures !loading
    {
      loading := false;
    }

    /** The matching effect. */
    method LoadMatches(s: Session, directory: seq<Contractor>)
      modifies s`matchingContractors
      ensures s.matchingContractors == FilterContractors(directory, s.selectedService, s.zip, s.state)
    {
      s.matchingContractors := FilterContractors(directory, s.selectedService, s.zip, s.state);
    }

    method HandleContractorOptInChange(s: Session, id: int, checked: bool)
      modifies s`matchingContractors, s`consentedContractors
      ensures s.matchingContractors == SetOptIn(old(s.matchingContractors), id, checked)
      ensures s.consentedContractors ==
              ConsentedAfterOptIn(s.matchingContractors, old(s.consentedContractors), id, checked)
    {
      var updated := SetOptIn(s.matchingContractors, id, checked);
      s.matchingContractors := updated;
      if checked {
        var selected := FindById(updated, id);
        if selected.Some? {
          s.consentedContractors := s.consentedContractors + [selected.value];
        }
      } else {
        s.consentedContractors := RemoveById(s.consentedContractors, id);
      }
    }

    method HandleContactPreferencesChange(value: string, checked: bool)
      modifies this`contactPreferences
      ensures contactPreferences == PreferencesAfterChange(old(contactPreferences), value, checked)
    {
      contactPreferences := PreferencesAfterChange(contactPreferences, value, checked);
    }

    /** Turning the option off withdraws every consent: no preferences, no
        consented contractors, no ticked contractor. */
    method HandleContactDirectlyChange(s: Session, checked: bool)
      modifies this`contactDirectly, this`contactPreferences, s`consentedContractors, s`matchingContractors
      ensures contactDirectly == checked
      ensures checked ==> contactPreferences == old(contactPreferences)
                          && s.consentedContractors == old(s.consentedContractors)
                          && s.matchingContractors == old(s.matchingContractors)
      ensures !checked ==> contactPreferences == [] && s.consentedContractors == []
                           && s.matchingContractors == ClearOptIns(old(s.matchingContractors))
    {
      contactDirectly := checked;
      if !checked {
        contactPreferences := [];
        s.consentedContractors := [];
        s.matchingContractors := ClearOptIns(s.matchingContractors);
      }
    }

    /** Posts the request (its outcome is `delivery`), records the error
        message on failure and always completes.  The preferences are cleared
        for the next render when nothing is consented, but `sent`, the consent
        block of the payload, is built from the values of the render in which
        the submit ran, so it still carries the old preferences. */
    method HandleSubmit(s: Session, delivery: Delivery) returns (sent: OneToOne, signal: Signal)
      modifies this`contactPreferences, this`error
      ensures sent == SentConsentAsWritten(s.consentedContractors, old(contactPreferences))
      ensures contactPreferences == SentConsent(s.consentedContractors, old(contactPreferences)).contactPreferences
      ensures error == ErrorAfter(old(error), delivery)
      ensures signal == Completed
    {
      var renderedPreferences := contactPreferences;
      if |s.consentedContractors| == 0 {
        contactPreferences := [];
      }
      sent := OneToOne(s.consentedContractors, renderedPreferences);
      error := PostOutcome(error, delivery);
      signal := Completed;
    }

    /** The submit as evidently intended: the block is built after the
        clearing, so it never carries preferences without a contractor. */
    method HandleSubmitCorrected(s: Session, delivery: Delivery) returns (sent: OneToOne, signal: Signal)
      modifies this`contactPreferences, this`error
      ensures sent == SentConsent(s.consentedContractors, old(contactPreferences))
      ensures contactPreferences == sent.contactPreferences
      ensures error == ErrorAfter(old(error), delivery)
      ensures signal == Completed
    {
      if |s.consentedContractors| == 0 {
        contactPreferences := [];
      }
      sent := OneToOne(s.consentedContractors, contactPreferences);
      error := PostOutcome(error, delivery);
      signal := Completed;
    }

    /** The `try`/`catch` around the post: the banner after it. */
    method PostOutcome(previous: Option<string>, delivery: Delivery) returns (r: Option<string>)
      ensures r == ErrorAfter(previous, delivery)
    {
      r := previous;
      match delivery {
        case Delivered =>
        case Rejected => r := Some("Failed to send appointments");
        case NetworkFailure(message) => r := Some(message);
      }
    }
  }
}
