/**
 * The suggestion inputs for the crew name and for the establishment. The
 * two components are the same state machine over a different list and a
 * different field name, so one class models both, parameterised by kind.
 */
module Autocomplete {
  import opened Wrappers
  import opened JsText
  import opened Types
  import opened NameAutocomplete

  /** Which input: crew names (`mainPerson`) or establishments (`establishment`). */
  datatype Kind = Names | Establishments

  /** The `name` under which the input reports its changes to the form. */
  function FieldOf(kind: Kind): (r: FormField)
    ensures r == MainPersonField <==> kind == Names
    ensures r == EstablishmentField <==> kind == Establishments
  {
    match kind
    case Names => MainPersonField
    case Establishments => EstablishmentField
  }

  /** The change event an input sends up: the field's name and the new value. */
  datatype ChangeEvent = ChangeEvent(name: FormField, value: string)

  /**
   * `NameAutocomplete` / `EstablishmentAutocomplete`: the list loaded from
   * the store, the current suggestions, whether they are shown, and the text
   * in the input.
   */
  class AutocompleteInput {
    const kind: Kind
    var all: seq<string>
    var suggestions: seq<string>
    var showSuggestions: bool
    var inputValue: string

    /** The list is never shown empty. */
    ghost predicate Valid()
      reads this
    {
      showSuggestions ==> suggestions != []
    }

    /**
     * What is rendered: the suggestions, when shown and there are any; in a
     * valid state, exactly the suggestions when they are shown.
     */
    function Visible(): (r: seq<string>)
      reads this
      ensures Valid() && showSuggestions ==> r == suggestions
      ensures !showSuggestions ==> r == []
    {
      if showSuggestions && |suggestions| > 0 then suggestions else []
    }

    /**
     * Mounting: the input shows the given value, nothing is suggested, and
     * the list is the store's, or empty when loading it fails.
     */
    constructor (kind: Kind, value: string, loaded: Option<seq<string>>)
      ensures this.kind == kind && inputValue == value
      ensures all == loaded.GetOr([]) && suggestions == [] && !showSuggestions
      ensures Valid()
    {
      this.kind := kind;
      inputValue := value;
      all := loaded.GetOr([]);
      suggestions := [];
      showSuggestions := false;
    }

    /** The effect on `[value]`: the input follows the value the form holds. */
    method ValueChanged(value: string)
      requires Valid()
      modifies this
      ensures inputValue == value
      ensures all == old(all) && suggestions == old(suggestions) && showSuggestions == old(showSuggestions)
      ensures Valid()
    {
      inputValue := value;
    }

    /**
     * `handleInputChange`: the new text goes into the input and up to the
     * form; a blank text clears and hides the suggestions, any other text
     * suggests the matching part of the list, shown iff it is non-empty.
     */
    method InputChange(newValue: string) returns (event: ChangeEvent)
      requires Valid()
      modifies this
      ensures event == ChangeEvent(FieldOf(kind), newValue)
      ensures inputValue == newValue && all == old(all)
      ensures IsBlank(newValue) ==> suggestions == [] && !showSuggestions
      ensures !IsBlank(newValue) ==> suggestions == Matching(all, newValue) && (showSuggestions <==> suggestions != [])
      ensures Valid()
    {
      inputValue := newValue;
      event := ChangeEvent(FieldOf(kind), newValue);
      if Trim(newValue) == "" {
        suggestions := [];
        showSuggestions := false;
      } else {
        var filtered := FilterByQuery(all, newValue);
        suggestions := filtered;
        showSuggestions := |filtered| > 0;
      }
    }

    /** `handleSelectSuggestion`: the input takes the suggestion, the form hears of it, the list closes. */
    method SelectSuggestion(suggestion: string) returns (event: ChangeEvent)
      requires Valid()
      modifies this
      ensures event == ChangeEvent(FieldOf(kind), suggestion)
      ensures inputValue == suggestion && !showSuggestions
      ensures all == old(all) && suggestions == old(suggestions)
      ensures Valid()
    {
      inputValue := suggestion;
      event := ChangeEvent(FieldOf(kind), suggestion);
      showSuggestions := false;
    }

    /** `handleBlur` once its delay has passed, and a click outside the input: the list closes. */
    method Dismiss()
      requires Valid()
      modifies this
      ensures !showSuggestions
      ensures all == old(all) && suggestions == old(suggestions) && inputValue == old(inputValue)
      ensures Valid()
    {
      showSuggestions := false;
    }

    /**
     * `onFocus`: the list is fetched again; the suggestions become the
     * fetched list filtered by the current text, or all of it when the text
     * is blank, and are shown iff there are any.
     */
    method Focus(fetched: seq<string>)
      requires Valid()
      modifies this
      ensures all == fetched && inputValue == old(inputValue)
      ensures suggestions == FilterByQuery(fetched, inputValue)
      ensures showSuggestions <==> suggestions != []
      ensures Valid()
    {
      all := fetched;
      if Trim(inputValue) != "" {
        var filtered := Matching(fetched, inputValue);
        suggestions := filtered;
        showSuggestions := |filtered| > 0;
      } else {
        suggestions := fetched;
        showSuggestions := |fetched| > 0;
      }
    }
  }
}
