/** The quote-request screen of the results flow: a checkbox per matching
    contractor (all checked at first), a select-all checkbox, a terms
    checkbox, and a submit that records the chosen contractors. */
module QuoteRequest {
  import opened Common
  import opened AppContext
  import opened ResultsFlow

  /** The row handler: `indexOf`, then `push` when absent or `splice(i, 1)`
      (drop the first occurrence) when present. */
  function SpliceToggle(xs: seq<int>, id: int): (r: seq<int>)
    ensures id !in xs ==> r == xs + [id]
    ensures id in xs ==> multiset(r) == multiset(xs) - multiset{id}
    ensures id in xs ==> |r| == |xs| - 1
    ensures id in xs ==> exists i :: 0 <= i < |xs| && xs[i] == id && id !in xs[..i] && r == xs[..i] + xs[i + 1..]
  {
    var i := IndexOf(xs, id);
    if i == -1 then xs + [id]
    else
      assert xs == xs[..i] + [xs[i]] + xs[i + 1..];
      xs[..i] + xs[i + 1..]
  }

  /** On a duplicate-free selection the splice toggle is the include-or-append
      toggle: the id is the only element touched. */
  lemma SpliceToggleIsToggle(xs: seq<int>, id: int)
    requires NoDuplicates(xs)
    ensures SpliceToggle(xs, id) == Toggle(xs, id)
  {
    if id in xs {
      var i := IndexOf(xs, id);
      var before, after := xs[..i], xs[i + 1..];
      assert xs == (before + [id]) + after;
      assert id !in after by {
        forall k | 0 <= k < |after| ensures after[k] != id {
          assert after[k] == xs[i + 1 + k];
        }
      }
      RemoveOnlyOccurrence(before, id, after);
    }
  }

  lemma RemoveOnlyOccurrence(before: seq<int>, id: int, after: seq<int>)
    requires id !in before && id !in after
    ensures RemoveAll((before + [id]) + after, id) == before + after
  {
    RemoveAllConcat(before + [id], after, id);
    RemoveAllConcat(before, [id], id);
    RemoveAllAbsent(before, id);
    RemoveAllAbsent(after, id);
    assert RemoveAll([id], id) == [];
    assert before + [] == before;
  }

  /** The select-all checkbox is checked when the selection is as long as the
      list of matches. */
  function AllSelected(selected: seq<int>, matching: seq<Contractor>): bool {
    |selected| == |matching|
  }

  /** The select-all handler: everything off when all are selected, otherwise
      every matching id. */
  function SelectAllToggle(selected: seq<int>, matching: seq<Contractor>): (r: seq<int>)
    ensures AllSelected(selected, matching) ==> r == []
    ensures !AllSelected(selected, matching) ==> forall c :: c in matching ==> c.id in r
    ensures !AllSelected(selected, matching) ==>
              |r| == |matching| && forall i :: 0 <= i < |r| ==> r[i] == matching[i].id
  {
    if AllSelected(selected, matching) then [] else
      var r := Ids(matching);
      assert forall c :: c in matching ==> c.id in r by {
        forall c | c in matching ensures c.id in r {
          IdsMembership(matching, c.id);
        }
      }
      r
  }

  /** The request button is disabled with no contractor ticked or the terms
      not accepted. */
  function RequestDisabled(selected: seq<int>, acceptance: bool): (r: bool)
    ensures !r <==> selected != [] && acceptance
  {
    |selected| == 0 || !acceptance
  }

  /** `matchingContractors.filter(c => selected.includes(c.id))`: the matches
      whose id is ticked, in the order of the matches. */
  function Chosen(matching: seq<Contractor>, selected: seq<int>): (r: seq<Contractor>)
    ensures forall c :: c in r <==> c in matching && c.id in selected
    ensures IsSubsequence(r, matching)
  {
    Filter(matching, (c: Contractor) => c.id in selected)
  }

  /** The selection stays a duplicate-free set of matching ids. */
  ghost predicate SelectionOk(selected: seq<int>, matching: seq<Contractor>) {
    NoDuplicates(selected) && forall id :: id in selected ==> id in Ids(matching)
  }

  lemma InitialSelectionOk(matching: seq<Contractor>)
    requires NoDuplicates(Ids(matching))
    ensures SelectionOk(Ids(matching), matching)
  {
  }

  /** A row checkbox of a matching contractor keeps the selection valid. */
  lemma CheckboxKeepsSelectionOk(selected: seq<int>, matching: seq<Contractor>, id: int)
    requires SelectionOk(selected, matching) && id in Ids(matching)
    ensures SelectionOk(SpliceToggle(selected, id), matching)
  {
    SpliceToggleIsToggle(selected, id);
    ToggleKeepsNoDuplicates(selected, id);
  }

  lemma SelectAllKeepsSelectionOk(selected: seq<int>, matching: seq<Contractor>)
    requires SelectionOk(selected, matching) && NoDuplicates(Ids(matching))
    ensures SelectionOk(SelectAllToggle(selected, matching), matching)
  {
  }

  /** With distinct contractor ids and a valid selection, the length test of
      the select-all checkbox means exactly "every match is ticked". */
  lemma AllSelectedMeansEveryMatch(selected: seq<int>, matching: seq<Contractor>)
    requires SelectionOk(selected, matching) && NoDuplicates(Ids(matching))
    ensures AllSelected(selected, matching) <==> forall c :: c in matching ==> c.id in selected
  {
    var ids := Ids(matching);
    assert forall x :: x in selected ==> x in ids;
    DistinctSubsetLength(selected, ids);
    if AllSelected(selected, matching) {
      forall c | c in matching ensures c.id in selected {
        IdsMembership(matching, c.id);
        if c.id !in selected {
          var rest := RemoveAll(ids, c.id);
          DistinctSubsetLength(selected, rest);
        }
      }
    }
    if forall c :: c in matching ==> c.id in selected {
      forall id | id in ids ensures id in selected {
        IdsMembership(matching, id);
      }
      DistinctSubsetLength(ids, selected);
    }
  }

  /** An enabled request button guarantees that the submit records at least
      one contractor. */
  lemma EnabledRequestChoosesSomeone(selected: seq<int>, acceptance: bool, matching: seq<Contractor>)
    requires SelectionOk(selected, matching) && !RequestDisabled(selected, acceptance)
    ensures Chosen(matching, selected) != []
  {
    var id := selected[0];
    IdsMembership(matching, id);
    var c :| c in matching && c.id == id;
    assert c in Chosen(matching, selected);
  }

  /** Submitting the untouched initial selection records every match. */
  lemma InitialSelectionChoosesAll(matching: seq<Contractor>)
    ensures Chosen(matching, Ids(matching)) == matching
  {
    forall c | c in matching ensures c.id in Ids(matching) {
      IdsMembership(matching, c.id);
    }
    FilterKeepsAll(matching, (c: Contractor) => c.id in Ids(matching));
  }

  class QuoteForm {
    var selected: seq<int>
    var acceptance: bool

    /** Every match ticked, terms not accepted. */
    constructor(matching: seq<Contractor>)
      ensures selected == Ids(matching) && !acceptance
    {
      selected := Ids(matching);
      acceptance := false;
    }

    /** The mount effect: the recorded contractors are cleared. */
    method ClearOnMount(s: Session)
      modifies s`selectedContractors
      ensures s.selectedContractors == []
    {
      s.selectedContractors := [];
    }

    method HandleCheckboxChange(id: int)
      modifies this`selected
      ensures selected == SpliceToggle(old(selected), id)
    {
      var currentIndex := IndexOf(selected, id);
      var newSelected := selected;
      if currentIndex == -1 {
        newSelected := newSelected + [id];
      } else {
        newSelected := newSelected[..currentIndex] + newSelected[currentIndex + 1..];
      }
      selected := newSelected;
    }

    method HandleSelectAll(matching: seq<Contractor>)
      modifies this`selected
      ensures selected == SelectAllToggle(old(selected), matching)
    {
      selected := if |selected| == |matching| then [] else Ids(matching);
    }

    method SetAcceptance(checked: bool)
      modifies this`acceptance
      ensures acceptance == checked
    {
      acceptance := checked;
    }

    /** Without acceptance nothing happens; otherwise the ticked matches are
        recorded and the flow advances. */
    method HandleSubmit(s: Session, flow: ResultsForm)
      requires flow.Valid()
      modifies s`selectedContractors, flow
      ensures flow.Valid()
      ensures !acceptance ==> s.selectedContractors == old(s.selectedContractors)
                              && flow.currentStep == old(flow.currentStep)
      ensures acceptance ==> s.selectedContractors == Chosen(s.matchingContractors, selected)
                             && flow.currentStep == old(flow.currentStep) + 1
    {
      if !acceptance {
        return;
      }
      s.selectedContractors := Chosen(s.matchingContractors, selected);
      flow.HandleNextStep();
    }
  }
}
