/** The searchable select: a dropdown over a list of options that narrows the
    list to the options whose label contains the search text, ignoring case,
    and that acts as a form control whose value is the chosen option's value.
    The `labelKey`/`valueKey` projections are fixed: an option is its label
    and its value. */
module SearchableSelect {
  import opened Values
  import opened Text

  /** `{ label, value }`: an option after `labelKey`/`valueKey` projection. */
  datatype SelectOption = SelectOption(labelText: string, value: Value)

  /** The filter's test: `label.toLowerCase().includes(searchText.toLowerCase())`. */
  predicate Matches(option: SelectOption, searchText: string)
  {
    Contains(Lower(option.labelText), Lower(searchText))
  }

  /** `options.filter(...)` with the test above. */
  function Filter(options: seq<SelectOption>, searchText: string): (r: seq<SelectOption>)
    ensures |r| <= |options|
    ensures forall k :: 0 <= k < |r| ==> r[k] in options && Matches(r[k], searchText)
  {
    if options == [] then []
    else
      var last := options[|options| - 1];
      Filter(options[..|options| - 1], searchText) + (if Matches(last, searchText) then [last] else [])
  }

  /** The positions in `options` of the options the filter keeps. */
  function KeptIndices(options: seq<SelectOption>, searchText: string): seq<nat>
  {
    if options == [] then []
    else
      var n := |options| - 1;
      KeptIndices(options[..n], searchText) + (if Matches(options[n], searchText) then [n] else [])
  }

  /** The filter's result is `options` read at the kept positions. */
  lemma {:induction false} FilterReadsKept(options: seq<SelectOption>, searchText: string)
    ensures |KeptIndices(options, searchText)| == |Filter(options, searchText)|
    ensures forall k :: 0 <= k < |KeptIndices(options, searchText)| ==>
              KeptIndices(options, searchText)[k] < |options|
              && Filter(options, searchText)[k] == options[KeptIndices(options, searchText)[k]]
  {
    if options != [] {
      var n := |options| - 1;
      FilterReadsKept(options[..n], searchText);
    }
  }

  /** The kept positions increase strictly and lie below `|options|`. */
  lemma {:induction false} KeptIncreasing(options: seq<SelectOption>, searchText: string)
    ensures forall k :: 0 <= k < |KeptIndices(options, searchText)| ==> KeptIndices(options, searchText)[k] < |options|
    ensures forall k, l :: 0 <= k < l < |KeptIndices(options, searchText)| ==>
              KeptIndices(options, searchText)[k] < KeptIndices(options, searchText)[l]
  {
    if options != [] {
      var n := |options| - 1;
      KeptIncreasing(options[..n], searchText);
    }
  }

  /** A position is kept exactly when its option matches. */
  lemma {:induction false} KeptExactlyMatching(options: seq<SelectOption>, searchText: string)
    ensures forall j :: 0 <= j < |options| ==> (Matches(options[j], searchText) <==> j in KeptIndices(options, searchText))
  {
    if options != [] {
      var n := |options| - 1;
      var front := options[..n];
      KeptExactlyMatching(front, searchText);
      KeptIncreasing(front, searchText);
      forall j | 0 <= j < |options|
        ensures Matches(options[j], searchText) <==> j in KeptIndices(options, searchText)
      {
        if j < n {
          assert front[j] == options[j];
        }
      }
    }
  }

  /** The filter keeps exactly the matching options, in their original order:
      the result is `options` read at a strictly increasing list of positions,
      and a position is in that list exactly when its option matches. */
  lemma FilterIsOrderedSubsequence(options: seq<SelectOption>, searchText: string)
    ensures var r, idx := Filter(options, searchText), KeptIndices(options, searchText);
            |idx| == |r|
            && (forall k :: 0 <= k < |idx| ==> idx[k] < |options| && r[k] == options[idx[k]])
            && (forall k, l :: 0 <= k < l < |idx| ==> idx[k] < idx[l])
            && (forall j :: 0 <= j < |options| ==> (Matches(options[j], searchText) <==> j in idx))
  {
    FilterReadsKept(options, searchText);
    KeptIncreasing(options, searchText);
    KeptExactlyMatching(options, searchText);
  }

  /** Every option's label contains the empty search text, so an empty
      search keeps all options. */
  lemma {:induction false} FilterEmptyText(options: seq<SelectOption>)
    ensures Filter(options, "") == options
  {
    if options != [] {
      var n := |options| - 1;
      FilterEmptyText(options[..n]);
      ContainsEmpty(Lower(options[n].labelText));
      assert options[..n] + [options[n]] == options;
    }
  }

  /** `options.find(opt => opt.value === value)`, as a position. */
  function FindFirst(options: seq<SelectOption>, value: Value): (r: Option<nat>)
    ensures r.Some? ==> r.value < |options| && options[r.value].value == value
                        && forall j :: 0 <= j < r.value ==> options[j].value != value
    ensures r.None? ==> forall j :: 0 <= j < |options| ==> options[j].value != value
  {
    if options == [] then None
    else if options[0].value == value then Some(0)
    else
      match FindFirst(options[1..], value)
      case None => None
      case Some(i) => Some(i + 1)
  }

  class SearchableSelect {
    var options: seq<SelectOption>
    var placeholder: string
    var defaultOption: Option<SelectOption>
    var searchText: string
    var isOpen: bool
    var selectedValue: Value
    var filteredOptions: seq<SelectOption>
    /** The values passed to the registered `onChange`, oldest first. */
    var changes: seq<Value>
    /** How many times the registered `onTouch` was called. */
    var touches: nat

    /** The component with its inputs bound and nothing selected or searched. */
    constructor (options: seq<SelectOption>, placeholder: string, defaultOption: Option<SelectOption>)
      ensures this.options == options && this.placeholder == placeholder && this.defaultOption == defaultOption
      ensures searchText == "" && !isOpen && selectedValue == Str("") && filteredOptions == []
      ensures changes == [] && touches == 0
    {
      this.options := options;
      this.placeholder := placeholder;
      this.defaultOption := defaultOption;
      searchText := "";
      isOpen := false;
      selectedValue := Str("");
      filteredOptions := [];
      changes := [];
      touches := 0;
    }

    /** `ngOnInit()`: the list shows every option. */
    method NgOnInit()
      modifies this`filteredOptions
      ensures filteredOptions == options
    {
      filteredOptions := options;
    }

    /** `writeValue(v)`: the form sets the selection; nothing else changes. */
    method WriteValue(value: Value)
      modifies this`selectedValue
      ensures selectedValue == value
    {
      selectedValue := value;
    }

    /** `toggleDropdown()`: opening clears the search and shows every option;
        closing leaves the search and the list as they were. */
    method ToggleDropdown()
      modifies this`isOpen, this`searchText, this`filteredOptions
      ensures isOpen == !old(isOpen)
      ensures isOpen ==> searchText == "" && filteredOptions == options
      ensures !isOpen ==> searchText == old(searchText) && filteredOptions == old(filteredOptions)
    {
      isOpen := !isOpen;
      if isOpen {
        searchText := "";
        FilterOptions();
        FilterEmptyText(options);
      }
    }

    /** `onSearch(event)`: the typed text becomes the search and the list is filtered. */
    method OnSearch(text: string)
      modifies this`searchText, this`filteredOptions
      ensures searchText == text && filteredOptions == Filter(options, text)
    {
      searchText := text;
      FilterOptions();
    }

    /** `filterOptions()`. */
    method FilterOptions()
      modifies this`filteredOptions
      ensures filteredOptions == Filter(options, searchText)
    {
      filteredOptions := Filter(options, searchText);
    }

    /** `selectOption(option)`: the option's value is selected and reported to
        the form, the control is marked touched, and the dropdown closes. */
    method SelectOption(option: SelectOption)
      modifies this`selectedValue, this`changes, this`touches, this`isOpen
      ensures selectedValue == option.value
      ensures changes == old(changes) + [option.value]
      ensures touches == old(touches) + 1
      ensures !isOpen
    {
      selectedValue := option.value;
      changes := changes + [selectedValue];
      touches := touches + 1;
      isOpen := false;
    }

    /** `getSelectedLabel()`: the default option's label while nothing (falsy)
        is selected and a default exists; otherwise the label of the first
        option holding the selected value, or the placeholder when none does. */
    function GetSelectedLabel(): (r: string)
      reads this
      ensures !Truthy(selectedValue) && defaultOption.Some? ==> r == defaultOption.value.labelText
      ensures !(!Truthy(selectedValue) && defaultOption.Some?) ==>
                forall i :: 0 <= i < |options| && options[i].value == selectedValue
                            && (forall j :: 0 <= j < i ==> options[j].value != selectedValue)
                            ==> r == options[i].labelText
      ensures !(!Truthy(selectedValue) && defaultOption.Some?) ==>
                (forall j :: 0 <= j < |options| ==> options[j].value != selectedValue) ==> r == placeholder
    {
      if !Truthy(selectedValue) && defaultOption.Some? then defaultOption.value.labelText
      else
        match FindFirst(options, selectedValue)
        case Some(i) => options[i].labelText
        case None => placeholder
    }
  }
}
