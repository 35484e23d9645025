/** Matching for the multi-service flow: the contractor directory is folded
    into the list of contractors whose zip and state equal the visitor's and
    who offer at least one selected service; each kept contractor carries the
    selected services it offers.  Also the two "no match" exits. */
module ContractorMatching {
  import opened Common
  import opened AppContext
  import opened MultiStep

  /** `selectedServices.filter(id => contractor.services.includes(id))`: the
      selected ids the contractor offers, in selection order, duplicates kept. */
  function TempMatches(selected: seq<int>, services: seq<int>): (r: seq<int>)
    ensures forall id :: id in r <==> id in selected && id in services
    ensures IsSubsequence(r, selected)
  {
    Filter(selected, id => id in services)
  }

  /** An offered id is matched as often as it is selected; others never. */
  lemma TempMatchesCount(selected: seq<int>, services: seq<int>, id: int)
    ensures multiset(TempMatches(selected, services))[id] == if id in services then multiset(selected)[id] else 0
  {
    FilterCount(selected, id => id in services, id);
  }

  /** `{...contractor, matchingServices: tempMatches}`. */
  function Annotated(c: Contractor, selected: seq<int>): Contractor {
    c.(matchingServices := TempMatches(selected, c.services))
  }

  predicate IsMatch(c: Contractor, zip: Option<string>, state: Option<string>, selected: seq<int>) {
    InArea(c, zip, state) && TempMatches(selected, c.services) != []
  }

  /** The result of the matching `reduce`. */
  function Matches(directory: seq<Contractor>, zip: Option<string>, state: Option<string>,
                   selected: seq<int>): (r: seq<Contractor>)
    ensures |r| <= |directory|
  {
    if directory == [] then []
    else if IsMatch(directory[0], zip, state, selected) then
      [Annotated(directory[0], selected)] + Matches(directory[1..], zip, state, selected)
    else Matches(directory[1..], zip, state, selected)
  }

  /** Everything in the result is a matching directory entry, annotated. */
  lemma {:induction false} MatchesSound(directory: seq<Contractor>, zip: Option<string>, state: Option<string>,
                                        selected: seq<int>, m: Contractor)
    requires m in Matches(directory, zip, state, selected)
    ensures exists c :: c in directory && IsMatch(c, zip, state, selected) && m == Annotated(c, selected)
  {
    var c := directory[0];
    if !(IsMatch(c, zip, state, selected) && m == Annotated(c, selected)) {
      MatchesSound(directory[1..], zip, state, selected, m);
      var d :| d in directory[1..] && IsMatch(d, zip, state, selected) && m == Annotated(d, selected);
      assert d in directory;
    }
  }

  /** Every matching directory entry is in the result, annotated. */
  lemma {:induction false} MatchesComplete(directory: seq<Contractor>, zip: Option<string>, state: Option<string>,
                                           selected: seq<int>, c: Contractor)
    requires c in directory && IsMatch(c, zip, state, selected)
    ensures Annotated(c, selected) in Matches(directory, zip, state, selected)
  {
    if c != directory[0] {
      assert c in directory[1..];
      MatchesComplete(directory[1..], zip, state, selected, c);
    }
  }

  /** A directory entry is in the result (with its matched services) iff its
      zip and state equal the visitor's and it offers a selected service. */
  lemma MatchesMembership(directory: seq<Contractor>, zip: Option<string>, state: Option<string>,
                          selected: seq<int>, c: Contractor)
    requires c in directory
    ensures Annotated(c, selected) in Matches(directory, zip, state, selected)
            <==> InArea(c, zip, state) && exists id :: id in selected && id in c.services
  {
    if Annotated(c, selected) in Matches(directory, zip, state, selected) {
      MatchesSound(directory, zip, state, selected, Annotated(c, selected));
      var d :| d in directory && IsMatch(d, zip, state, selected) && Annotated(c, selected) == Annotated(d, selected);
      assert d.zip == c.zip && d.state == c.state && d.services == c.services;
      var id := TempMatches(selected, c.services)[0];
      assert id in TempMatches(selected, c.services);
    }
    if InArea(c, zip, state) && exists id :: id in selected && id in c.services {
      var id :| id in selected && id in c.services;
      assert id in TempMatches(selected, c.services);
      MatchesComplete(directory, zip, state, selected, c);
    }
  }

  /** Every kept contractor offers each of its matched services, and they are
      never empty. */
  lemma MatchedServicesOffered(directory: seq<Contractor>, zip: Option<string>, state: Option<string>,
                               selected: seq<int>, m: Contractor)
    requires m in Matches(directory, zip, state, selected)
    ensures m.matchingServices != []
    ensures forall id :: id in m.matchingServices ==> id in selected && id in m.services
  {
    MatchesSound(directory, zip, state, selected, m);
  }

  /** The result follows the directory's order: matching a concatenation is
      the concatenation of the matches. */
  lemma {:induction false} MatchesConcat(a: seq<Contractor>, b: seq<Contractor>, zip: Option<string>,
                                         state: Option<string>, selected: seq<int>)
    ensures Matches(a + b, zip, state, selected) == Matches(a, zip, state, selected) + Matches(b, zip, state, selected)
  {
    if a == [] {
      assert a + b == b;
    } else {
      var rest := Matches(a[1..] + b, zip, state, selected);
      assert (a + b)[0] == a[0] && (a + b)[1..] == a[1..] + b;
      MatchesConcat(a[1..], b, zip, state, selected);
      if IsMatch(a[0], zip, state, selected) {
        assert Matches(a + b, zip, state, selected) == [Annotated(a[0], selected)] + rest;
      } else {
        assert Matches(a + b, zip, state, selected) == rest;
      }
    }
  }

  /** A one-entry directory yields its entry, annotated, iff it matches. */
  lemma MatchesOne(c: Contractor, zip: Option<string>, state: Option<string>, selected: seq<int>)
    ensures Matches([c], zip, state, selected) == if IsMatch(c, zip, state, selected) then [Annotated(c, selected)] else []
  {
    assert [c][1..] == [];
  }

  /** No selected service, or an unknown zip or state, gives an empty result. */
  lemma {:induction false} NothingToMatch(directory: seq<Contractor>, zip: Option<string>, state: Option<string>,
                                          selected: seq<int>)
    requires selected == [] || zip.None? || state.None?
    ensures Matches(directory, zip, state, selected) == []
  {
    if directory != [] {
      NothingToMatch(directory[1..], zip, state, selected);
      assert selected == [] ==> TempMatches(selected, directory[0].services) == [];
    }
  }

  /** The `reduce` over the directory, pushing each match onto the
      accumulator. */
  method MatchContractors(directory: seq<Contractor>, zip: Option<string>, state: Option<string>,
                          selected: seq<int>) returns (acc: seq<Contractor>)
    ensures acc == Matches(directory, zip, state, selected)
  {
    acc := [];
    for i := 0 to |directory|
      invariant acc == Matches(directory[..i], zip, state, selected)
    {
      var contractor := directory[i];
      assert directory[..i + 1] == directory[..i] + [contractor];
      MatchesConcat(directory[..i], [contractor], zip, state, selected);
      MatchesOne(contractor, zip, state, selected);
      if zip == Some(contractor.zip) && state == Some(contractor.state) {
        var tempMatches := TempMatches(selected, contractor.services);
        if |tempMatches| > 0 {
          acc := acc + [contractor.(matchingServices := tempMatches)];
        }
      }
    }
    assert directory[..|directory|] == directory;
  }

  /** What the step shows: a loading message, then experts or the "no
      match" exits. */
  datatype View = Searching | ExpertsFound | NoExperts

  function ViewOf(loading: bool, matching: seq<Contractor>): (v: View)
    ensures v == NoExperts <==> !loading && matching == []
  {
    if loading then Searching else if |matching| > 0 then ExpertsFound else NoExperts
  }

  class MatchStep {
    var loading: bool

    constructor()
      ensures loading
    {
      loading := true;
    }

    /** The matching effect: the session's matches become the fold's result
        and the loading message is dropped. */
    method FindMatches(s: Session, directory: seq<Contractor>)
      modifies this, s`matchingContractors
      ensures s.matchingContractors == Matches(directory, s.zip, s.state, s.selectedServices)
      ensures !loading
    {
      s.matchingContractors := [];
      var matched := MatchContractors(directory, s.zip, s.state, s.selectedServices);
      s.matchingContractors := matched;
      loading := false;
    }

    /** "Select different service/s": clear the selection, the matches and
        the initial service, then restart the flow at step 1. */
    method HandleSelectDifferentServices(s: Session, flow: MultiStepForm)
      modifies s`selectedServices, s`matchingContractors, s`initialService, flow
      ensures s.selectedServices == [] && s.matchingContractors == [] && s.initialService == 0
      ensures flow.Valid() && flow.currentStep == 1
      ensures s.CurrentIdentity() == old(s.CurrentIdentity())
    {
      s.selectedServices := [];
      s.matchingContractors := [];
      s.initialService := 0;
      flow.HandleRestart(s);
    }

    /** The dialog's "Continue": the same three clears, then the flow's home
        callback, which leaves the step counter as it is. */
    method HandleDialogContinue(s: Session, flow: MultiStepForm)
      modifies s`selectedServices, s`matchingContractors, s`initialService
      ensures s.selectedServices == [] && s.matchingContractors == [] && s.initialService == 0
      ensures s.CurrentIdentity() == old(s.CurrentIdentity())
    {
      s.selectedServices := [];
      s.matchingContractors := [];
      s.initialService := 0;
      flow.HandleHome(s);
    }
  }

  /** Scenario: one contractor in 90210/CA offering services 5 and 7; the
      visitor selects 7 and gets that contractor with matched services [7];
      selecting 9 instead gives no contractor. */
  lemma SingleContractorScenario(c: Contractor)
    requires c.zip == "90210" && c.state == "CA" && c.services == [5, 7]
    ensures Matches([c], Some("90210"), Some("CA"), [7]) == [c.(matchingServices := [7])]
    ensures Matches([c], Some("90210"), Some("CA"), [9]) == []
  {
    assert TempMatches([7], c.services) == [7] by {
      assert 7 in c.services;
      assert Filter([7], id => id in [5, 7]) == [7];
    }
    assert TempMatches([9], c.services) == [] by {
      assert 9 !in c.services;
    }
  }
}
