/** The specification step of the project flow, catalogue version: buttons
    for the selected service's specifications plus "Other", toggled into a
    local selection; a submit that stores the selection in the session,
    refreshes the form-progress row and advances when that succeeded; and a
    back button that clears the stored specifications. */
module ProjectSpecifications {
  import opened Common
  import opened AppContext
  import opened FormStore

  const OtherSpec: string := "Other"

  /** The buttons shown: the specifications of the service record (the
      catalogue's first entry with the session's service id, here; none while
      no record is known), then "Other". */
  function SpecOptions(service: Option<Service>): (r: seq<string>)
    ensures |r| >= 1 && r[|r| - 1] == OtherSpec
    ensures OtherSpec in r
    ensures forall x :: x in r <==> x == OtherSpec || (service.Some? && x in service.value.specifications)
    ensures r[..|r| - 1] == if service.Some? then service.value.specifications else []
  {
    (if service.Some? then service.value.specifications else []) + [OtherSpec]
  }

  /** The button's `disabled`: nothing selected. */
  predicate SubmitDisabled(selectedSpecs: seq<string>) {
    |selectedSpecs| == 0
  }

  /** Clicking offered buttons keeps the selection within what is offered, and
      free of duplicates. */
  lemma ClicksStayWithinOptions(selected: seq<string>, options: seq<string>, spec: string)
    requires forall x :: x in selected ==> x in options
    requires NoDuplicates(selected)
    requires spec in options
    ensures forall x :: x in Toggle(selected, spec) ==> x in options
    ensures NoDuplicates(Toggle(selected, spec))
  {
    ToggleKeepsNoDuplicates(selected, spec);
  }

  /** A click on an unselected button makes the submit available. */
  lemma ClickOnUnselectedEnables(selected: seq<string>, spec: string)
    requires spec !in selected
    ensures !SubmitDisabled(Toggle(selected, spec))
  {
    assert spec in Toggle(selected, spec);
  }

  /** The phone an inserted row gets: the `phone` URL parameter, with an empty
      value read as `null`. */
  function PhoneFromUrl(params: UrlParams): (r: Option<string>)
    ensures r.Some? <==> "phone" in params && params["phone"] != ""
    ensures r.Some? ==> r.value == params["phone"]
  {
    OrNull(Param(params, "phone"))
  }

  class SpecificationsStep {
    var selectedSpecs: seq<string>
    var loading: bool

    /** The selection starts from the session's stored specifications. */
    constructor(s: Session)
      ensures selectedSpecs == s.serviceSpecifications && !loading
    {
      selectedSpecs := s.serviceSpecifications;
      loading := false;
    }

    /** The effect that follows a change of the stored specifications. */
    method SyncSelection(s: Session)
      modifies this`selectedSpecs
      ensures selectedSpecs == s.serviceSpecifications
    {
      selectedSpecs := s.serviceSpecifications;
    }

    /** A specification button toggles its entry. */
    method HandleSpecSelect(spec: string)
      modifies this`selectedSpecs
      ensures selectedSpecs == Toggle(old(selectedSpecs), spec)
    {
      if spec in selectedSpecs {
        selectedSpecs := RemoveAll(selectedSpecs, spec);
      } else {
        selectedSpecs := selectedSpecs + [spec];
      }
    }

    /** Back clears the stored specifications and goes back. */
    method HandleBack(s: Session) returns (signal: Signal)
      modifies s`serviceSpecifications
      ensures s.serviceSpecifications == [] && signal == Back
    {
      s.serviceSpecifications := [];
      signal := Back;
    }

    /** The submit: the selection is stored in the session first, whatever
        follows; then the form-progress row is refreshed (only its update
        time) or inserted with the phone from the URL; the step advances iff
        no error report was sent. */
    method HandleSubmit(s: Session, table: FormsTable, params: UrlParams, now: string,
                        lookup: Outcome, write: Outcome) returns (signal: Signal, report: Option<string>)
      modifies this`loading, s`serviceSpecifications, table
      ensures s.serviceSpecifications == selectedSpecs && !loading
      ensures table.rows == UpsertSpec(old(table.rows), s.formId, now, Touch, PhoneFromUrl(params), lookup, write).rows
      ensures report == UpsertSpec(old(table.rows), s.formId, now, Touch, PhoneFromUrl(params), lookup, write).report
      ensures signal == Next <==> report.None?
      ensures signal != Next ==> signal == Stay
    {
      loading := true;
      s.serviceSpecifications := selectedSpecs;
      var phone := PhoneFromUrl(params);
      report := table.Upsert(s.formId, now, Touch, phone, lookup, write);
      loading := false;
      signal := if report.None? then Next else Stay;
    }
  }
}
