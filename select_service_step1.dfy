/** The first step of the multi-service flow: a searchable catalogue
    dropdown that toggles services in and out of the form's selection, a
    remove button per selected service, and a submit that stores a non-empty
    selection in the session and advances. */
module ServiceSelection {
  import opened Common
  import opened AppContext
  import opened MultiStep

  /** `initialService ? [initialService] : []`: a zero id selects nothing. */
  function InitialSelection(initialService: int): (r: seq<int>)
    ensures initialService == 0 ==> r == []
    ensures initialService != 0 ==> r == [initialService]
    ensures NoDuplicates(r)
  {
    if initialService != 0 then [initialService] else []
  }

  /** The dropdown's entries: catalogue services whose lower-cased name
      contains the lower-cased search term, in catalogue order. */
  function FilteredServices(catalog: seq<Service>, term: string): (r: seq<Service>)
    ensures forall s :: s in r <==> s in catalog && Includes(Lower(s.name), Lower(term))
    ensures IsSubsequence(r, catalog)
  {
    Filter(catalog, (s: Service) => Includes(Lower(s.name), Lower(term)))
  }

  /** An empty search term lists the whole catalogue. */
  lemma EmptySearchListsAll(catalog: seq<Service>)
    ensures FilteredServices(catalog, "") == catalog
  {
    forall s | s in catalog ensures Includes(Lower(s.name), Lower("")) {
      assert OccursAt(Lower(s.name), Lower(""), 0);
    }
    FilterKeepsAll(catalog, (s: Service) => Includes(Lower(s.name), Lower("")));
  }

  /** The search ignores case: a term and its lower-cased form list the same
      services. */
  lemma SearchIgnoresCase(catalog: seq<Service>, term: string)
    ensures FilteredServices(catalog, term) == FilteredServices(catalog, Lower(term))
  {
    LowerIdempotent(term);
  }

  lemma LowerIdempotent(s: string)
    ensures Lower(Lower(s)) == Lower(s)
  {
    forall i | 0 <= i < |s| ensures Lower(Lower(s))[i] == Lower(s)[i] {
      assert LowerChar(LowerChar(s[i])) == LowerChar(s[i]);
    }
  }

  /** The selected-services list: the catalogue entry of each selected id, in
      selection order; an id without an entry shows nothing. */
  function SelectedRows(selected: seq<int>, catalog: seq<Service>): (r: seq<Service>)
    ensures |r| <= |selected|
    ensures forall s :: s in r ==> s in catalog && s.id in selected
    ensures forall id :: id in selected && FirstService(catalog, id).Some? ==> FirstService(catalog, id).value in r
  {
    if selected == [] then []
    else
      var rest := SelectedRows(selected[1..], catalog);
      var row := FirstService(catalog, selected[0]);
      assert forall id :: id in selected ==> id == selected[0] || id in selected[1..];
      if row.Some? then [row.value] + rest else rest
  }

  /** One selected id shows its catalogue entry, or nothing without one. */
  lemma SelectedRowsOne(id: int, catalog: seq<Service>)
    ensures SelectedRows([id], catalog) == if FirstService(catalog, id).Some? then [FirstService(catalog, id).value] else []
  {
    assert [id][1..] == [];
  }

  /** The rows of a non-empty selection: those of its first id, then those of
      the rest. */
  lemma SelectedRowsUnfold(selected: seq<int>, catalog: seq<Service>)
    requires selected != []
    ensures SelectedRows(selected, catalog) == SelectedRows([selected[0]], catalog) + SelectedRows(selected[1..], catalog)
  {
    SelectedRowsOne(selected[0], catalog);
  }

  /** The rows follow selection order: the rows of a concatenation are the
      concatenated rows. */
  lemma {:induction false} SelectedRowsConcat(a: seq<int>, b: seq<int>, catalog: seq<Service>)
    ensures SelectedRows(a + b, catalog) == SelectedRows(a, catalog) + SelectedRows(b, catalog)
  {
    if a == [] {
      assert a + b == b;
    } else {
      var head := SelectedRows([a[0]], catalog);
      var tail := SelectedRows(a[1..], catalog);
      var rest := SelectedRows(b, catalog);
      assert (a + b)[0] == a[0];
      assert (a + b)[1..] == a[1..] + b;
      SelectedRowsUnfold(a + b, catalog);
      SelectedRowsUnfold(a, catalog);
      SelectedRowsConcat(a[1..], b, catalog);
      ConcatAssociative(head, tail, rest);
    }
  }

  lemma ConcatAssociative(x: seq<Service>, y: seq<Service>, z: seq<Service>)
    ensures x + (y + z) == (x + y) + z
  {
  }

  /** Clicking an entry and removing a row keep the selection free of
      duplicates. */
  lemma ClicksKeepSelectionDistinct(selected: seq<int>, id: int)
    requires NoDuplicates(selected)
    ensures NoDuplicates(Toggle(selected, id))
    ensures NoDuplicates(RemoveAll(selected, id))
  {
    ToggleKeepsNoDuplicates(selected, id);
    NoDuplicatesOfSubsequence(RemoveAll(selected, id), selected);
  }

  class ServicePicker {
    var selected: seq<int>
    /** The form's initial values, to which a reset returns. */
    var initialSelection: seq<int>
    var searchTerm: string
    var isDropdownOpen: bool

    constructor(initialService: int)
      ensures selected == InitialSelection(initialService) && initialSelection == selected
      ensures searchTerm == "" && !isDropdownOpen
    {
      selected := InitialSelection(initialService);
      initialSelection := InitialSelection(initialService);
      searchTerm := "";
      isDropdownOpen := false;
    }

    /** The mount effect: a non-zero initial service is consumed. */
    method ConsumeInitialService(s: Session)
      modifies s`initialService
      ensures s.initialService == 0
    {
      if s.initialService != 0 {
        s.initialService := 0;
      }
    }

    /** Focusing the search box opens the dropdown. */
    method HandleFocus()
      modifies this`isDropdownOpen
      ensures isDropdownOpen
    {
      isDropdownOpen := true;
    }

    /** A mouse press outside the dropdown closes it. */
    method HandleClickOutside()
      modifies this`isDropdownOpen
      ensures !isDropdownOpen
    {
      isDropdownOpen := false;
    }

    method SetSearchTerm(term: string)
      modifies this`searchTerm
      ensures searchTerm == term
    {
      searchTerm := term;
    }

    /** A dropdown entry toggles its service and closes the dropdown. */
    method HandleServiceClick(id: int)
      modifies this`selected, this`isDropdownOpen
      ensures selected == Toggle(old(selected), id) && !isDropdownOpen
    {
      var isSelected := id in selected;
      selected := if isSelected then RemoveAll(selected, id) else selected + [id];
      isDropdownOpen := false;
    }

    /** The remove button of a selected row. */
    method HandleRemove(id: int)
      modifies this`selected
      ensures selected == RemoveAll(old(selected), id)
    {
      selected := RemoveAll(selected, id);
    }

    /** An empty selection does nothing; otherwise the selection goes to the
        session, the form returns to its initial values and the flow moves
        on. */
    method HandleSubmit(s: Session, flow: MultiStepForm)
      requires flow.Valid()
      modifies this`selected, s`selectedServices, flow
      ensures flow.Valid()
      ensures old(selected) == [] ==> selected == [] && s.selectedServices == old(s.selectedServices)
                                      && flow.currentStep == old(flow.currentStep)
      ensures old(selected) != [] ==> s.selectedServices == old(selected) && selected == initialSelection
                                      && flow.currentStep == old(flow.currentStep) + 1
    {
      if |selected| == 0 {
        return;
      }
      s.selectedServices := selected;
      selected := initialSelection;
      flow.HandleNextStep();
    }
  }
}
