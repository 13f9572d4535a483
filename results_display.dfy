/**
 * The results panel as a view-selection function of its props
 * (src/components/ResultsDisplay.tsx).
 */
module ResultsDisplay {
  import opened Wrappers

  /** A finished run's two texts. */
  datatype Results = Results(summary: string, transcript: string)

  /** The state badge of one row of the loading view's step list. */
  datatype StepState = Done | InProgress | Waiting

  /** One row of the loading view's step list. */
  datatype StepIndicator = StepIndicator(title: string, state: StepState)

  const LoadingFallback: string := "Analyzing video content with AI..."
  const ErrorFallback: string := "Sorry, we couldn't process this video. Please check the URL and try again."

  /** The fixed step list of the loading view: the first step ticked, the second
      spinning, the third waiting. */
  const LoadingSteps: seq<StepIndicator> := [
    StepIndicator("Downloading Audio", Done),
    StepIndicator("Generating Transcript", InProgress),
    StepIndicator("Creating Summary", Waiting)]

  /** What the component renders. */
  datatype View =
    | Hidden
    | Loading(message: string, steps: seq<StepIndicator>)
    | Failed(message: string)
    | Success(summary: string, transcript: string)

  /** JavaScript truthiness of an optional string: present and non-empty. */
  predicate Truthy(s: Option<string>)
  {
    s.Some? && s.value != ""
  }

  /** The `s || fallback` expression on an optional string. */
  function OrElse(s: Option<string>, fallback: string): string
  {
    if Truthy(s) then s.value else fallback
  }

  /** The chain of early returns: hidden, loading, error, results, and a final hidden. */
  function Render(isLoading: bool, loadingStep: Option<string>, results: Option<Results>,
                  error: Option<string>): (v: View)
    ensures v.Loading? ==> v.message != "" && v.steps == LoadingSteps
    ensures v.Failed? ==> v.message != ""
    ensures v.Success? ==> results == Some(Results(v.summary, v.transcript))
  {
    if !isLoading && results.None? && !Truthy(error) then Hidden
    else if isLoading then Loading(OrElse(loadingStep, LoadingFallback), LoadingSteps)
    else if Truthy(error) then Failed(OrElse(error, ErrorFallback))
    else if results.Some? then Success(results.value.summary, results.value.transcript)
    else Hidden
  }

  /** Nothing is shown exactly when nothing is loading, there are no results and
      no error; the final `return null` is never reached. */
  lemma HiddenIff(isLoading: bool, loadingStep: Option<string>, results: Option<Results>,
                  error: Option<string>)
    ensures Render(isLoading, loadingStep, results, error).Hidden?
            <==> !isLoading && results.None? && !Truthy(error)
  {
  }

  /** Loading takes priority over both the error and the results. */
  lemma LoadingFirst(loadingStep: Option<string>, results: Option<Results>, error: Option<string>)
    ensures Render(true, loadingStep, results, error).Loading?
  {
  }

  /** When not loading, an error takes priority over the results. */
  lemma ErrorBeforeResults(loadingStep: Option<string>, results: Option<Results>, error: Option<string>)
    requires Truthy(error)
    ensures Render(false, loadingStep, results, error).Failed?
  {
  }

  /** The loading message is the step text when it is non-empty, the fallback text
      otherwise; the step list never depends on the inputs. */
  lemma LoadingMessage(loadingStep: Option<string>, results: Option<Results>, error: Option<string>)
    ensures var v := Render(true, loadingStep, results, error);
            v.message == (if Truthy(loadingStep) then loadingStep.value else LoadingFallback) &&
            v.steps == LoadingSteps
  {
  }

  /** The error text shown is always the error itself: the fallback is unreachable. */
  lemma ErrorMessageIsError(isLoading: bool, loadingStep: Option<string>, results: Option<Results>,
                            error: Option<string>)
    requires Render(isLoading, loadingStep, results, error).Failed?
    ensures error.Some? && error.value != ""
    ensures Render(isLoading, loadingStep, results, error).message == error.value
  {
  }

  /** The success view appears exactly with results, no error, nothing loading, and
      shows both texts unchanged. */
  lemma SuccessShowsResults(isLoading: bool, loadingStep: Option<string>, results: Option<Results>,
                            error: Option<string>)
    ensures Render(isLoading, loadingStep, results, error).Success?
            <==> !isLoading && !Truthy(error) && results.Some?
    ensures Render(isLoading, loadingStep, results, error).Success? ==>
            Render(isLoading, loadingStep, results, error) ==
            Success(results.value.summary, results.value.transcript)
  {
  }

  /** Whatever the step text, the indicator shows step 1 done, step 2 running and step 3 pending. */
  lemma IndicatorIgnoresStep(a: Option<string>, b: Option<string>, results: Option<Results>,
                             error: Option<string>)
    ensures Render(true, a, results, error).steps == Render(true, b, results, error).steps
    ensures |LoadingSteps| == 3 && LoadingSteps[0].state == Done &&
            LoadingSteps[1].state == InProgress && LoadingSteps[2].state == Waiting
  {
  }
}
