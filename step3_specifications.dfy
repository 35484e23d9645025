/** The specification step of the project flow, remote version: the service
    record is fetched from the "Services" table by the session's service id;
    otherwise the step behaves as the catalogue version, with the same
    toggles, back button and submit. */
module ProjectSpecificationsRemote {
  import opened Common
  import opened AppContext
  import opened FormStore
  import opened ProjectSpecifications

  /** The fetch as a function of the session's service id, the table's
      contents and the request's outcome: a zero id skips the request; an
      error, a thrown request or a missing row (a `.single()` lookup fails on
      it) keeps what was shown; otherwise the row with that id is shown. */
  function FetchedData(shown: Option<Service>, selectedService: int, services: seq<Service>,
                       outcome: Outcome): (r: Option<Service>)
    ensures selectedService == 0 || !outcome.Ok? ==> r == shown
    ensures (forall x :: x in services ==> x.id != selectedService) ==> r == shown
    ensures r != shown ==> r.Some? && r.value in services && r.value.id == selectedService
    ensures selectedService != 0 && outcome.Ok? && (exists x :: x in services && x.id == selectedService) ==>
              r.Some? && r.value in services && r.value.id == selectedService
  {
    if selectedService == 0 || !outcome.Ok? then shown
    else
      var found := FirstService(services, selectedService);
      if found.Some? then found else shown
  }

  /** With the id unique in the table (it is the table's key), a successful
      fetch shows that row, and its specifications become the buttons. */
  lemma FetchShowsTheRow(shown: Option<Service>, services: seq<Service>, row: Service)
    requires row in services && row.id != 0
    requires forall x :: x in services && x.id == row.id ==> x == row
    ensures FetchedData(shown, row.id, services, Ok) == Some(row)
    ensures SpecOptions(FetchedData(shown, row.id, services, Ok)) == row.specifications + [OtherSpec]
  {
    var found := FirstService(services, row.id);
    assert found.Some?;
  }

  /** Before any fetch succeeds, only "Other" is offered. */
  lemma NothingFetchedOffersOther()
    ensures SpecOptions(None) == [OtherSpec]
  {
  }

  class RemoteSpecificationsStep {
    var selectedSpecs: seq<string>
    var loading: bool
    var selectedServiceData: Option<Service>

    constructor(s: Session)
      ensures selectedSpecs == s.serviceSpecifications && !loading && selectedServiceData.None?
    {
      selectedSpecs := s.serviceSpecifications;
      loading := false;
      selectedServiceData := None;
    }

    /** The effect that follows a change of the session's service id. */
    method FetchServiceData(s: Session, services: seq<Service>, outcome: Outcome)
      modifies this`selectedServiceData
      ensures selectedServiceData == FetchedData(old(selectedServiceData), s.selectedService, services, outcome)
    {
      if s.selectedService == 0 {
        return;
      }
      if !outcome.Ok? {
        return;
      }
      var found := FirstService(services, s.selectedService);
      if found.Some? {
        selectedServiceData := found;
      }
    }

    /** The effect that follows a change of the stored specifications. */
    method SyncSelection(s: Session)
      modifies this`selectedSpecs
      ensures selectedSpecs == s.serviceSpecifications
    {
      selectedSpecs := s.serviceSpecifications;
    }

    /** A specification button: an unselected entry is appended, a selected
        one removed. */
    method HandleSpecSelect(spec: string)
      modifies this`selectedSpecs
      ensures selectedSpecs == Toggle(old(selectedSpecs), spec)
    {
      var isSelected := spec !in selectedSpecs;
      selectedSpecs := if isSelected then selectedSpecs + [spec] else RemoveAll(selectedSpecs, spec);
    }

    method HandleBack(s: Session) returns (signal: Signal)
      modifies s`serviceSpecifications
      ensures s.serviceSpecifications == [] && signal == Back
    {
      s.serviceSpecifications := [];
      signal := Back;
    }

    /** The submit, as in the catalogue version. */
    method HandleSubmit(s: Session, table: FormsTable, params: UrlParams, now: string,
                        lookup: Outcome, write: Outcome) returns (signal: Signal, report: Option<string>)
      modifies this`loading, s`serviceSpecifications, table
      ensures s.serviceSpecifications == selectedSpecs && !loading
      ensures table.rows == UpsertSpec(old(table.rows), s.formId, now, Touch, PhoneFromUrl(params), lookup, write).rows
      ensures report == UpsertSpec(old(table.rows), s.formId, now, Touch, PhoneFromUrl(params), lookup, write).report
      ensures signal == Next <==> report.None?
      ensures signal != Next ==> signal == Stay
    {
      loading := true;
      s.serviceSpecifications := selectedSpecs;
      var phone := PhoneFromUrl(params);
      report := table.Upsert(s.formId, now, Touch, phone, lookup, write);
      loading := false;
      signal := if report.None? then Next else Stay;
    }
  }
}
