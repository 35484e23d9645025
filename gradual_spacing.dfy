/** The animated heading: the text is split into characters, and the
    characters of the first occurrence of the highlight text get the accent
    colour. */
module GradualSpacing {
  import opened Common

  /** Which characters get the accent colour, as the component computes it:
      `startIndex = text.indexOf(highlightText)` and
      `startIndex <= i < startIndex + highlightText.length`.  An absent
      highlight gives a start of -1, so the window still covers the first
      `|highlight| - 1` characters. */
  function HighlightedAsWritten(text: string, highlight: string): (r: seq<bool>)
    ensures |r| == |text|
  {
    var start := StrIndexOf(text, highlight);
    seq(|text|, i => start <= i < start + |highlight|)
  }

  /** The intended colouring: the window of the first occurrence, and nothing
      when the highlight does not occur. */
  function Highlighted(text: string, highlight: string): (r: seq<bool>)
    ensures |r| == |text|
    ensures StrIndexOf(text, highlight) == -1 ==> forall i :: 0 <= i < |r| ==> !r[i]
    ensures StrIndexOf(text, highlight) >= 0 ==>
              forall i :: 0 <= i < |r| ==>
                (r[i] <==> StrIndexOf(text, highlight) <= i < StrIndexOf(text, highlight) + |highlight|)
  {
    var start := StrIndexOf(text, highlight);
    seq(|text|, i => start >= 0 && start <= i < start + |highlight|)
  }

  /** Every accented character is the matching character of the highlight,
      and every character of the first occurrence is accented. */
  lemma HighlightedSpellsHighlight(text: string, highlight: string, i: int)
    requires 0 <= i < |text|
    ensures Highlighted(text, highlight)[i] ==>
              var start := StrIndexOf(text, highlight);
              0 <= i - start < |highlight| && text[i] == highlight[i - start]
    ensures Includes(text, highlight) ==>
              var start := StrIndexOf(text, highlight);
              (start <= i < start + |highlight| ==> Highlighted(text, highlight)[i])
  {
    var start := StrIndexOf(text, highlight);
    if Highlighted(text, highlight)[i] {
      assert OccursAt(text, highlight, start);
      assert text[start..start + |highlight|][i - start] == text[i];
    }
  }

  /** Where the highlight occurs, the component agrees with the intended
      colouring. */
  lemma AsWrittenAgreesWhenPresent(text: string, highlight: string)
    requires Includes(text, highlight)
    ensures HighlightedAsWritten(text, highlight) == Highlighted(text, highlight)
  {
  }

  /** When the highlight does not occur, the component accents the first
      `|highlight| - 1` characters (as far as the text goes). */
  lemma AbsentHighlightCoversPrefix(text: string, highlight: string)
    requires !Includes(text, highlight)
    ensures forall i :: 0 <= i < |text| ==> (HighlightedAsWritten(text, highlight)[i] <==> i < |highlight| - 1)
  {
  }

  /** The default empty highlight accents nothing. */
  lemma EmptyHighlightAccentsNothing(text: string)
    ensures forall i :: 0 <= i < |text| ==> !HighlightedAsWritten(text, "")[i]
  {
    assert OccursAt(text, "", 0);
  }

  /** Scenario: heading "Hi" with highlight "Hey", which does not occur; the
      component accents both characters, the intended colouring none. */
  lemma AbsentHighlightScenario()
    ensures HighlightedAsWritten("Hi", "Hey") == [true, true]
    ensures Highlighted("Hi", "Hey") == [false, false]
  {
    assert StrIndexOf("Hi", "Hey") == -1;
  }
}
