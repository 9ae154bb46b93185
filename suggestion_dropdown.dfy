/** The free-text combo box with a suggestion list
    (frontend/src/components/SuggestionDropdown.js). */
module SuggestionDropdown {
  import opened Text
  import opened Lists

  /** `filteredSuggestions`: the suggestions whose lowercase form contains the
      lowercase input, in their original order. */
  function Filtered(suggestions: seq<string>, input: string): (r: seq<string>)
    ensures forall i :: 0 <= i < |r| ==> r[i] in suggestions && Contains(ToLower(r[i]), ToLower(input))
    ensures forall i :: 0 <= i < |suggestions| && Contains(ToLower(suggestions[i]), ToLower(input)) ==>
              suggestions[i] in r
  {
    Filter(suggestions, s => Contains(ToLower(s), ToLower(input)))
  }

  /** The filter keeps the order, and an empty input keeps every suggestion. */
  lemma FilteredKeepsOrder(suggestions: seq<string>, input: string)
    ensures IsSubsequence(Filtered(suggestions, input), suggestions)
    ensures input == "" ==> Filtered(suggestions, input) == suggestions
  {
    FilterIsSubsequence(suggestions, s => Contains(ToLower(s), ToLower(input)));
    if input == "" {
      FilterKeepsAll(suggestions, s => Contains(ToLower(s), ToLower(input)));
    }
  }

  /** Whether each shown suggestion carries the check mark. */
  function CheckMarks(shown: seq<string>, input: string): (r: seq<bool>)
    ensures |r| == |shown|
    ensures forall i :: 0 <= i < |shown| ==> (r[i] <==> shown[i] == input)
  {
    seq(|shown|, i requires 0 <= i < |shown| => shown[i] == input)
  }

  /** The component's state: the text in the box, whether the list is open, and
      the values handed to the parent's `onChange`, oldest first. */
  class Dropdown {
    const suggestions: seq<string>
    var inputValue: string
    var open: bool
    var reported: seq<string>

    constructor(value: string, suggestions: seq<string>)
      ensures this.suggestions == suggestions
      ensures inputValue == value && !open && reported == []
    {
      this.suggestions := suggestions;
      inputValue := value;
      open := false;
      reported := [];
    }

    /** The effect on `value`: the box shows the parent's new value. */
    method ValueChanged(value: string)
      modifies this`inputValue
      ensures inputValue == value
    {
      inputValue := value;
    }

    /** `handleSelect`. */
    method Select(selected: string)
      modifies this`inputValue, this`open, this`reported
      ensures inputValue == selected && !open
      ensures reported == old(reported) + [selected]
    {
      inputValue := selected;
      reported := reported + [selected];
      open := false;
    }

    /** The input's `onChange` handler. */
    method Type(text: string)
      modifies this`inputValue, this`open, this`reported
      ensures inputValue == text && open
      ensures reported == old(reported) + [text]
    {
      inputValue := text;
      reported := reported + [text];
      open := true;
    }

    /** The document's `mousedown` listener: a press outside the box closes the
        list; a press inside leaves it as it was. */
    method MouseDown(inside: bool)
      modifies this`open
      ensures open == (old(open) && inside)
    {
      if !inside {
        open := false;
      }
    }

    /** The popover's `onOpenChange`, which is `setOpen`. */
    method OpenChange(isOpen: bool)
      modifies this`open
      ensures open == isOpen
    {
      open := isOpen;
    }
  }

  /** After a suggestion is selected it is still listed, and it is the one with
      the check mark. */
  lemma SelectedIsShownAndChecked(suggestions: seq<string>, k: nat)
    requires k < |suggestions|
    ensures var shown := Filtered(suggestions, suggestions[k]);
            exists i :: 0 <= i < |shown| && shown[i] == suggestions[k] && CheckMarks(shown, suggestions[k])[i]
  {
    assert Contains(ToLower(suggestions[k]), ToLower(suggestions[k]));
    var shown := Filtered(suggestions, suggestions[k]);
    assert suggestions[k] in shown;
    var i :| 0 <= i < |shown| && shown[i] == suggestions[k];
    assert CheckMarks(shown, suggestions[k])[i];
  }
}
