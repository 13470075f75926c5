/**
 * The generic dropdown: which options are listed for a search query, what
 * the closed button shows, and the open/query state changed by clicks.
 */
module Dropdown {
  import opened Wrappers
  import opened Text
  import NameFilter

  /** One choice: the value reported on selection and the text shown for it. */
  datatype Choice = Choice(value: string, caption: string)

  function Caption(c: Choice): string
  {
    c.caption
  }

  const DefaultPlaceholder := "Select..."

  /** The listed options: all of them unless searching with a non-empty query. */
  function FilteredOptions(options: seq<Choice>, searchable: bool, query: string): (r: seq<Choice>)
    ensures !searchable || query == "" ==> r == options
    ensures searchable ==> r == NameFilter.FilterByName(options, Caption, query)
  {
    if !searchable || query == "" then options else NameFilter.KeepNamed(options, Caption, query)
  }

  /**
   * While searching, an option is listed exactly when its caption contains
   * the query ignoring case, in the original order; filtering the listed
   * options again lists the same ones.
   */
  lemma FilteredOptionsLaws(options: seq<Choice>, query: string)
    ensures forall i :: 0 <= i < |options| && ContainsIgnoringCase(options[i].caption, query) ==>
      options[i] in FilteredOptions(options, true, query)
    ensures forall c :: c in FilteredOptions(options, true, query) ==> c in options && ContainsIgnoringCase(c.caption, query)
    ensures FilteredOptions(FilteredOptions(options, true, query), true, query) == FilteredOptions(options, true, query)
  {
    NameFilter.FilterByNameLaws(options, Caption, query);
  }

  /** `options.find(opt => opt.value === value)`. */
  function FindByValue(options: seq<Choice>, value: string): (r: Option<Choice>)
    ensures r.Some? ==> r.value in options && r.value.value == value
    ensures r.None? <==> forall i :: 0 <= i < |options| ==> options[i].value != value
    decreases |options|
  {
    if |options| == 0 then None
    else if options[0].value == value then Some(options[0])
    else FindByValue(options[1..], value)
  }

  /** The first option carrying the value is the one found. */
  lemma {:induction false} FindByValueFirst(options: seq<Choice>, value: string, i: int)
    requires 0 <= i < |options| && options[i].value == value
    requires forall j :: 0 <= j < i ==> options[j].value != value
    ensures FindByValue(options, value) == Some(options[i])
    decreases i
  {
    if i > 0 {
      FindByValueFirst(options[1..], value, i - 1);
    }
  }

  /** The button text: the selected option's caption, or the placeholder when none is selected or its caption is empty. */
  function ButtonText(options: seq<Choice>, value: string, placeholder: string): (r: string)
    ensures (forall i :: 0 <= i < |options| ==> options[i].value != value) ==> r == placeholder
  {
    match FindByValue(options, value)
    case Some(c) => if c.caption != "" then c.caption else placeholder
    case None => placeholder
  }

  /** A selected option with a non-empty caption is named on the button; an empty caption falls back to the placeholder. */
  lemma ButtonTextOfSelection(options: seq<Choice>, value: string, placeholder: string, i: int)
    requires 0 <= i < |options| && options[i].value == value
    requires forall j :: 0 <= j < i ==> options[j].value != value
    ensures options[i].caption != "" ==> ButtonText(options, value, placeholder) == options[i].caption
    ensures options[i].caption == "" ==> ButtonText(options, value, placeholder) == placeholder
  {
    FindByValueFirst(options, value, i);
  }

  // ---------------------------------------------------------------------
  // Open/closed state and the search query
  // ---------------------------------------------------------------------

  datatype Menu = Menu(isOpen: bool, query: string) {

    /** The button: flips the list unless the dropdown is disabled. */
    function Toggle(disabled: bool): Menu
    {
      if disabled then this else this.(isOpen := !isOpen)
    }

    /** A mousedown outside the dropdown closes the list and forgets the query. */
    function Dismiss(): Menu
    {
      Menu(false, "")
    }

    function Type(q: string): Menu
    {
      this.(query := q)
    }

    /** What is listed: nothing while closed. */
    function Listed(options: seq<Choice>, searchable: bool): (r: Option<seq<Choice>>)
      ensures r.Some? <==> isOpen
    {
      if isOpen then Some(FilteredOptions(options, searchable, query)) else None
    }

    /** "No results found" is shown when the open list is empty. */
    predicate ShowsNoResults(options: seq<Choice>, searchable: bool)
    {
      isOpen && |FilteredOptions(options, searchable, query)| == 0
    }
  }

  const InitialMenu := Menu(false, "")

  /** Two clicks on an enabled button give back the original state. */
  lemma ToggleTwice(m: Menu)
    ensures m.Toggle(false).Toggle(false) == m
  {
  }

  /** After a dismissal or a selection, reopening lists every option again. */
  lemma ReopenListsEverything(m: Menu, options: seq<Choice>, searchable: bool)
    ensures m.Dismiss().Toggle(false).Listed(options, searchable) == Some(options)
  {
  }

  /** With the search off, the open list says "No results found" exactly when there are no options. */
  lemma NoResultsIff(m: Menu, options: seq<Choice>)
    requires m.isOpen
    ensures m.ShowsNoResults(options, false) <==> |options| == 0
  {
  }

  class DropdownState {
    var isOpen: bool
    var searchQuery: string

    function Snapshot(): Menu
      reads this
    {
      Menu(isOpen, searchQuery)
    }

    constructor()
      ensures Snapshot() == InitialMenu
    {
      isOpen := false;
      searchQuery := "";
    }

    method OnButtonClick(disabled: bool)
      modifies this
      ensures Snapshot() == old(Snapshot()).Toggle(disabled)
      ensures disabled ==> Snapshot() == old(Snapshot())
      ensures !disabled ==> isOpen == !old(isOpen) && searchQuery == old(searchQuery)
    {
      if !disabled {
        isOpen := !isOpen;
      }
    }

    /** The document-level mousedown listener; only a press outside the dropdown acts. */
    method OnDocumentMouseDown(inside: bool)
      modifies this
      ensures Snapshot() == if inside then old(Snapshot()) else old(Snapshot()).Dismiss()
    {
      if !inside {
        isOpen := false;
        searchQuery := "";
      }
    }

    method OnSearchInput(q: string)
      modifies this
      ensures Snapshot() == old(Snapshot()).Type(q)
    {
      searchQuery := q;
    }

    /**
     * A click on the `i`-th listed option: reports its value, closes the
     * list and clears the query.
     */
    method OnOptionClick(options: seq<Choice>, searchable: bool, i: nat) returns (chosen: string)
      requires isOpen && i < |FilteredOptions(options, searchable, searchQuery)|
      modifies this
      ensures chosen == FilteredOptions(options, searchable, old(searchQuery))[i].value
      ensures exists c :: c in options && c.value == chosen
      ensures Snapshot() == old(Snapshot()).Dismiss()
    {
      var listed := FilteredOptions(options, searchable, searchQuery);
      var picked := listed[i];
      if searchable {
        NameFilter.FilterByNameLaws(options, Caption, searchQuery);
      }
      assert picked in options;
      chosen := picked.value;
      isOpen := false;
      searchQuery := "";
    }
  }
}
