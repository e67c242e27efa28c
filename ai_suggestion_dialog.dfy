/** The suggestion dialog of src/components/dashboard/ai-suggestion-dialog.tsx:
    a two-field form, a request to the suggestion service, and the three
    views (form, spinner, suggestion) it moves between. The service itself
    is not modelled; its answer is a parameter. */
module AiSuggestionDialog {
  import opened Wrappers

  const MinFieldLength: nat := 10

  datatype FieldError = CurrentGoalsTooShort | PastPerformanceTooShort

  /** `suggestionSchema`: both descriptions need at least 10 characters;
      every short field is reported. */
  function Validate(currentGoals: string, pastPerformance: string): (errors: seq<FieldError>)
    ensures errors == [] <==> |currentGoals| >= MinFieldLength && |pastPerformance| >= MinFieldLength
    ensures CurrentGoalsTooShort in errors <==> |currentGoals| < MinFieldLength
    ensures PastPerformanceTooShort in errors <==> |pastPerformance| < MinFieldLength
  {
    (if |currentGoals| < MinFieldLength then [CurrentGoalsTooShort] else []) +
    (if |pastPerformance| < MinFieldLength then [PastPerformanceTooShort] else [])
  }

  /** What the suggestion service answers. */
  datatype SuggestionResult = SuggestionResult(success: bool, data: Option<string>, error: Option<string>)

  /** The error toast, with the service's error text as its description. */
  datatype ErrorToast = ErrorToast(description: Option<string>)

  class SuggestionDialog {
    var currentGoals: string
    var pastPerformance: string
    var isLoading: bool
    var suggestion: Option<string>
    /** Whether the dialog is open; owned by the page. */
    var isOpen: bool

    /** A request in flight has no suggestion to show, and a shown
        suggestion is never empty. */
    predicate Valid()
      reads this
    {
      (isLoading ==> suggestion.None?) && (suggestion.Some? ==> suggestion.value != "")
    }

    predicate ShowsForm()
      reads this
    {
      suggestion.None? && !isLoading
    }

    predicate ShowsSpinner()
      reads this
    {
      isLoading
    }

    predicate ShowsSuggestion()
      reads this
    {
      suggestion.Some?
    }

    constructor (isOpen: bool)
      ensures Valid() && ShowsForm()
      ensures currentGoals == "" && pastPerformance == "" && this.isOpen == isOpen
    {
      currentGoals, pastPerformance := "", "";
      isLoading, suggestion := false, None;
      this.isOpen := isOpen;
    }

    method EditFields(currentGoals: string, pastPerformance: string)
      modifies this
      ensures this.currentGoals == currentGoals && this.pastPerformance == pastPerformance
      ensures isLoading == old(isLoading) && suggestion == old(suggestion) && isOpen == old(isOpen)
    {
      this.currentGoals, this.pastPerformance := currentGoals, pastPerformance;
    }

    /** Submitting: only a valid form sends a request, which clears any
        previous suggestion and shows the spinner. */
    method Submit() returns (errors: seq<FieldError>)
      requires Valid()
      modifies this
      ensures Valid()
      ensures errors == Validate(currentGoals, pastPerformance)
      ensures errors != [] ==> unchanged(this)
      ensures errors == [] ==> isLoading && suggestion.None? && ShowsSpinner()
      ensures currentGoals == old(currentGoals) && pastPerformance == old(pastPerformance) && isOpen == old(isOpen)
    {
      errors := Validate(currentGoals, pastPerformance);
      if errors == [] {
        isLoading := true;
        suggestion := None;
      }
    }

    /** The answer arrives: the spinner stops; only a successful answer with
        a non-empty suggestion is shown, anything else raises the toast. */
    method Receive(result: SuggestionResult) returns (toast: Option<ErrorToast>)
      requires Valid()
      modifies this
      ensures Valid() && !isLoading
      ensures result.success && TruthyString(result.data) ==> suggestion == result.data && toast.None?
      ensures !(result.success && TruthyString(result.data)) ==>
        suggestion == old(suggestion) && toast == Some(ErrorToast(result.error))
      ensures currentGoals == old(currentGoals) && pastPerformance == old(pastPerformance) && isOpen == old(isOpen)
    {
      isLoading := false;
      if result.success && TruthyString(result.data) {
        suggestion := result.data;
        toast := None;
      } else {
        toast := Some(ErrorToast(result.error));
      }
    }

    /** `handleClose`: closing resets the form and drops the suggestion;
        opening changes neither. */
    method HandleClose(open: bool)
      requires Valid()
      modifies this
      ensures Valid() && isOpen == open && isLoading == old(isLoading)
      ensures !open ==> currentGoals == "" && pastPerformance == "" && suggestion.None?
      ensures open ==> currentGoals == old(currentGoals) && pastPerformance == old(pastPerformance) &&
                       suggestion == old(suggestion)
    {
      if !open {
        currentGoals, pastPerformance := "", "";
        suggestion := None;
      }
      isOpen := open;
    }

    /** "Ask Again": back to the form with its contents kept. */
    method AskAgain()
      requires Valid() && ShowsSuggestion()
      modifies this
      ensures Valid() && ShowsForm()
      ensures currentGoals == old(currentGoals) && pastPerformance == old(pastPerformance) && isOpen == old(isOpen)
    {
      suggestion := None;
    }
  }

  /** In every reachable state exactly one of the three views shows. */
  lemma OneViewAtATime(d: SuggestionDialog)
    requires d.Valid()
    ensures d.ShowsForm() || d.ShowsSpinner() || d.ShowsSuggestion()
    ensures !(d.ShowsForm() && d.ShowsSpinner())
    ensures !(d.ShowsForm() && d.ShowsSuggestion())
    ensures !(d.ShowsSpinner() && d.ShowsSuggestion())
  {
  }
}
