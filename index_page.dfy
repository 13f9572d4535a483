/**
 * The home page's processing run (src/pages/Index.tsx): four pieces of state
 * updated in a fixed order by `handleGenerate`, and the condition under which
 * the results panel is mounted.
 */
module IndexPage {
  import opened Wrappers
  import opened ResultsDisplay
  import ToolInterface

  /** The three simulated delays of a run, in the order they are awaited. */
  datatype Delay = ExtractAudio | GenerateTranscript | CreateSummary

  const Delays: seq<Delay> := [ExtractAudio, GenerateTranscript, CreateSummary]

  /** The step text shown while a delay is awaited. */
  function StepLabel(d: Delay): string
  {
    match d
    case ExtractAudio => "Step 1/3: Extracting audio..."
    case GenerateTranscript => "Step 2/3: Generating transcript..."
    case CreateSummary => "Step 3/3: Creating summary..."
  }

  /** The fixed message of the catch block. */
  const FailureMessage: string := "Failed to process video. Please check the URL and try again."

  /** How the awaited delays settle: all resolve, or one of them rejects (and the
      ones after it are never reached). */
  datatype Outcome = AllResolve | RejectsAt(delay: Delay)

  /** The page's four state fields at one moment. */
  datatype Snapshot = Snapshot(isLoading: bool, loadingStep: string, results: Option<Results>,
                               error: Option<string>)

  /** The initial state of the page. */
  const Idle: Snapshot := Snapshot(false, "", None, None)

  /** The delays a run awaits: all three, or up to and including the one that rejects. */
  function DelaysReached(o: Outcome): (ds: seq<Delay>)
    ensures 1 <= |ds| <= 3 && ds == Delays[..|ds|]
    ensures o.AllResolve? ==> ds == Delays
    ensures o.RejectsAt? ==> ds[|ds| - 1] == o.delay
  {
    match o
    case AllResolve => Delays
    case RejectsAt(ExtractAudio) => Delays[..1]
    case RejectsAt(GenerateTranscript) => Delays[..2]
    case RejectsAt(CreateSummary) => Delays
  }

  /** The state after the `finally` block: results on success, the fixed error on
      failure, and in both cases not loading and no step text. */
  function Settled(canned: Results, o: Outcome): (s: Snapshot)
    ensures !s.isLoading && s.loadingStep == ""
    ensures PanelView(s) == if o.AllResolve? then Success(canned.summary, canned.transcript)
                            else Failed(FailureMessage)
  {
    if o.AllResolve? then Snapshot(false, "", Some(canned), None)
    else Snapshot(false, "", None, Some(FailureMessage))
  }

  /** The state on screen while delay `d` is awaited. */
  function Awaiting(d: Delay): Snapshot
  {
    Snapshot(true, StepLabel(d), None, None)
  }

  /** The states on screen while a run awaits: one per delay reached. */
  function Awaited(o: Outcome): (t: seq<Snapshot>)
    ensures |t| == |DelaysReached(o)|
    ensures forall i :: 0 <= i < |t| ==> t[i].isLoading && t[i].results.None? && t[i].error.None?
  {
    match o
    case RejectsAt(ExtractAudio) => [Awaiting(ExtractAudio)]
    case RejectsAt(GenerateTranscript) => [Awaiting(ExtractAudio), Awaiting(GenerateTranscript)]
    case _ => [Awaiting(ExtractAudio), Awaiting(GenerateTranscript), Awaiting(CreateSummary)]
  }

  /** What a run puts on screen: the awaited states, then the settled state. */
  function RunTrace(canned: Results, o: Outcome): (t: seq<Snapshot>)
    ensures |t| == |DelaysReached(o)| + 1
    ensures forall i :: 0 <= i < |t| ==> (t[i].isLoading <==> i < |t| - 1)
  {
    Awaited(o) + [Settled(canned, o)]
  }

  /** A run shows the step text of exactly the delays it reaches, in order. */
  lemma AwaitedFollowsDelays(o: Outcome)
    ensures var ds := DelaysReached(o);
            |Awaited(o)| == |ds| && forall i :: 0 <= i < |ds| ==> Awaited(o)[i] == Awaiting(ds[i])
  {
  }

  /** `isLoading || results || error`: the condition for mounting the results panel. */
  predicate PanelMounted(s: Snapshot)
    ensures PanelMounted(s) <==> !PanelView(s).Hidden?
  {
    HiddenIff(s.isLoading, Some(s.loadingStep), s.results, s.error);
    s.isLoading || s.results.Some? || Truthy(s.error)
  }

  /** What the mounted panel shows for a state of the page. */
  function PanelView(s: Snapshot): View
  {
    Render(s.isLoading, Some(s.loadingStep), s.results, s.error)
  }

  /** The first state of a run is loading, with results and error cleared. */
  lemma RunStartsClean(canned: Results, o: Outcome)
    ensures var t := RunTrace(canned, o);
            |t| >= 2 && t[0].isLoading && t[0].results.None? && t[0].error.None? &&
            t[0].loadingStep == StepLabel(ExtractAudio)
  {
  }

  /** While the run awaits, the step texts are the three labels in order; a run in
      which nothing rejects shows all three. */
  lemma StepsInOrder(canned: Results, o: Outcome)
    ensures var t := RunTrace(canned, o);
            forall i :: 0 <= i < |t| - 1 ==>
              t[i].isLoading && t[i].loadingStep == StepLabel(Delays[i])
    ensures o.AllResolve? ==>
            var t := RunTrace(canned, o);
            |t| == 4 &&
            t[0].loadingStep == "Step 1/3: Extracting audio..." &&
            t[1].loadingStep == "Step 2/3: Generating transcript..." &&
            t[2].loadingStep == "Step 3/3: Creating summary..."
  {
    AwaitedFollowsDelays(o);
  }

  /** Whatever the outcome, the run ends not loading and with no step text; success
      leaves the results and no error, failure the fixed message and no results. */
  lemma RunSettles(canned: Results, o: Outcome)
    ensures var t := RunTrace(canned, o);
            var last := t[|t| - 1];
            !last.isLoading && last.loadingStep == "" &&
            (o.AllResolve? ==> last.results == Some(canned) && last.error.None?) &&
            (o.RejectsAt? ==> last.results.None? && last.error == Some(FailureMessage))
  {
  }

  /** During a run the form's submit gate is closed, so no second run can start. */
  lemma NoSubmitWhileRunning(videoUrl: string, selectedModel: string, canned: Results, o: Outcome)
    ensures var t := RunTrace(canned, o);
            forall i :: 0 <= i < |t| - 1 ==> !ToolInterface.CanGenerate(videoUrl, selectedModel, t[i].isLoading)
  {
  }

  /** Throughout a run the panel is mounted; it shows each step text while loading,
      then the results or the fixed error. */
  lemma PanelDuringRun(canned: Results, o: Outcome)
    ensures var t := RunTrace(canned, o);
            (forall i :: 0 <= i < |t| ==> PanelMounted(t[i])) &&
            (forall i :: 0 <= i < |t| - 1 ==>
               PanelView(t[i]) == Loading(StepLabel(Delays[i]), LoadingSteps)) &&
            PanelView(t[|t| - 1]) ==
              (if o.AllResolve? then Success(canned.summary, canned.transcript)
               else Failed(FailureMessage))
  {
  }

  /** The page's state, with the states it has put on screen so far. */
  class Page {
    var isLoading: bool
    var loadingStep: string
    var results: Option<Results>
    var error: Option<string>
    /** The state on screen during each awaited delay and after each run. */
    ghost var rendered: seq<Snapshot>

    function Current(): Snapshot
      reads this
    {
      Snapshot(isLoading, loadingStep, results, error)
    }

    constructor ()
      ensures Current() == Idle && rendered == []
    {
      isLoading, loadingStep, results, error := false, "", None, None;
      rendered := [];
    }

    /** One step of a run: its label goes on screen and stays there while its delay
        is awaited; the delay rejects exactly when the outcome names it. */
    method Step(d: Delay, o: Outcome) returns (rejected: bool)
      requires isLoading && results.None? && error.None?
      modifies this`loadingStep, this`rendered
      ensures loadingStep == StepLabel(d)
      ensures rendered == old(rendered) + [Awaiting(d)]
      ensures rejected <==> o == RejectsAt(d)
    {
      loadingStep := StepLabel(d);
      rendered := rendered + [Current()];
      rejected := o == RejectsAt(d);
    }

    /** The `try` block of a run: the three steps in order; a rejected delay skips
        the remaining steps, and results are stored only when all three resolve. */
    method RunSteps(canned: Results, o: Outcome) returns (rejected: bool)
      requires isLoading && results.None? && error.None?
      modifies this
      ensures rendered == old(rendered) + Awaited(o)
      ensures rejected <==> o.RejectsAt?
      ensures loadingStep == StepLabel(DelaysReached(o)[|DelaysReached(o)| - 1])
      ensures isLoading && error.None? && results == (if rejected then None else Some(canned))
    {
      rejected := Step(ExtractAudio, o);
      if !rejected {
        rejected := Step(GenerateTranscript, o);
        if !rejected {
          rejected := Step(CreateSummary, o);
          if !rejected {
            results := Some(canned);
          }
        }
      }
    }

    /** The run started by the form. The mock ignores the URL and the model and
        yields `canned` once all three delays have resolved. */
    method HandleGenerate(videoUrl: string, selectedModel: string, canned: Results, o: Outcome)
      modifies this
      ensures rendered == old(rendered) + RunTrace(canned, o)
      ensures Current() == Settled(canned, o)
    {
      isLoading := true;
      error := None;
      results := None;
      var rejected := RunSteps(canned, o);
      if rejected {
        // catch
        error := Some(FailureMessage);
      }
      // finally
      isLoading := false;
      loadingStep := "";
      rendered := rendered + [Current()];
    }
  }
}
