/**
 * The multimodal analysis page: the user picks one processed fundus image
 * and one processed ERG recording, starts the analysis, watches a
 * simulated progress bar and finally sees the stored analysis.
 */
module AnalysisPage {
  import opened Wrappers
  import MultimodalRoute

  /** How the start request ended, as the page observes it. */
  datatype StartResponse =
    | Threw(message: Option<string>)   // fetch raised; `message` when an Error was thrown
    | NotOk                            // an HTTP status outside 200-299
    | Accepted(analysisId: string)     // the route answered with the new analysis id

  /** The message shown when either selection is missing. */
  const SelectBoth := "Please select both fundus image and ERG data"

  /** The button is disabled unless both inputs are chosen and nothing is running. */
  predicate RunDisabled(fundus: string, erg: string, analyzing: bool) {
    fundus == "" || erg == "" || analyzing
  }

  /** The error text for a failed start: the thrown message, or the fixed one. */
  function FailureMessage(response: StartResponse): (m: string)
    requires !response.Accepted?
    ensures response.Threw? && response.message.Some? ==> m == response.message.value
    ensures response.NotOk? || response.message.None? ==> m == "Analysis failed"
  {
    match response
    case Threw(message) => message.GetOr("Analysis failed")
    case NotOk => "Analysis failed"
  }

  /** One beat of the simulated progress interval. */
  function ProgressStep(prev: int): (next: int)
    ensures prev >= 90 ==> next == 90
    ensures next == 90 || next == prev + 10
    ensures prev <= 80 ==> prev < next <= 90
    ensures prev % 10 == 0 ==> next % 10 == 0
  {
    if prev >= 90 then 90 else prev + 10
  }

  /** The progress after `n` beats starting from `start`. */
  function Ticks(start: int, n: nat): int {
    if n == 0 then start else ProgressStep(Ticks(start, n - 1))
  }

  /** From zero, each beat adds ten until the bar parks at 90. */
  lemma {:induction false} TicksFromZero(n: nat)
    ensures Ticks(0, n) == if 10 * n <= 90 then 10 * n else 90
  {
    if n > 0 {
      TicksFromZero(n - 1);
    }
  }

  /** Before completion the simulated bar never passes 90, however long it runs. */
  lemma {:induction false} TicksStayBelowCompletion(n: nat)
    ensures 0 <= Ticks(0, n) <= 90
  {
    TicksFromZero(n);
  }

  /** The four stages the progress bar describes. */
  datatype Stage = FundusCnn | ErgMlp | Fusion | Predictions

  function StageText(s: Stage): string {
    match s
    case FundusCnn => "Processing fundus image with CNN..."
    case ErgMlp => "Analyzing ERG signals with MLP..."
    case Fusion => "Fusing multimodal features..."
    case Predictions => "Generating final predictions..."
  }

  /** The stage whose band holds `progress`. */
  function StageOf(progress: int): (s: Stage)
    ensures s == FundusCnn <==> progress < 30
    ensures s == ErgMlp <==> 30 <= progress < 60
    ensures s == Fusion <==> 60 <= progress < 90
    ensures s == Predictions <==> progress >= 90
  {
    if progress < 30 then FundusCnn
    else if progress < 60 then ErgMlp
    else if progress < 90 then Fusion
    else Predictions
  }

  /**
   * The caption as the page renders it: four independent conditional
   * pieces, each of which renders nothing when its condition is false.
   */
  function StageCaption(progress: int): string {
    (if progress < 30 then StageText(FundusCnn) else "")
    + (if progress >= 30 && progress < 60 then StageText(ErgMlp) else "")
    + (if progress >= 60 && progress < 90 then StageText(Fusion) else "")
    + (if progress >= 90 then StageText(Predictions) else "")
  }

  /** The four bands partition the progress values: exactly one message shows. */
  lemma ExactlyOneStageShows(progress: int)
    ensures StageCaption(progress) == StageText(StageOf(progress))
  {
  }

  /** The page component's state. */
  class AnalysisView {
    var selectedFundus: string
    var selectedErg: string
    var analyzing: bool
    var progress: int
    var currentResult: Option<MultimodalRoute.AnalysisRow>
    var error: Option<string>

    /** While a run is going the bar shows a multiple of ten no higher than 90. */
    predicate ProgressInRange()
      reads this
    {
      analyzing ==> 0 <= progress <= 90 && progress % 10 == 0
    }

    constructor ()
      ensures selectedFundus == "" && selectedErg == ""
      ensures !analyzing && progress == 0
      ensures currentResult == None && error == None
    {
      selectedFundus, selectedErg := "", "";
      analyzing, progress := false, 0;
      currentResult, error := None, None;
    }

    method SelectFundus(id: string)
      modifies this
      ensures selectedFundus == id
      ensures selectedErg == old(selectedErg) && analyzing == old(analyzing) && progress == old(progress)
      ensures currentResult == old(currentResult) && error == old(error)
    {
      selectedFundus := id;
    }

    method SelectErg(id: string)
      modifies this
      ensures selectedErg == id
      ensures selectedFundus == old(selectedFundus) && analyzing == old(analyzing) && progress == old(progress)
      ensures currentResult == old(currentResult) && error == old(error)
    {
      selectedErg := id;
    }

    /**
     * The synchronous start of an analysis. With either selection empty it
     * only sets the error and reports that no request is sent; otherwise it
     * clears the error, raises `analyzing` and resets the bar.
     */
    method BeginRequest() returns (send: bool)
      modifies this
      ensures send <==> old(selectedFundus) != "" && old(selectedErg) != ""
      ensures !send ==> error == Some(SelectBoth) && analyzing == old(analyzing) && progress == old(progress)
      ensures send ==> error == None && analyzing && progress == 0
      ensures selectedFundus == old(selectedFundus) && selectedErg == old(selectedErg)
      ensures currentResult == old(currentResult)
    {
      if selectedFundus == "" || selectedErg == "" {
        error := Some(SelectBoth);
        send := false;
        return;
      }
      error := None;
      analyzing := true;
      progress := 0;
      send := true;
    }

    /**
     * The answer to the start request. A failure shows its message and
     * stops the run with the bar at zero; an accepted request leaves the
     * run going and yields the id the completion timer will fetch.
     */
    method OnResponse(response: StartResponse) returns (pending: Option<string>)
      modifies this
      ensures response.Accepted? ==> pending == Some(response.analysisId)
      ensures response.Accepted? ==> analyzing == old(analyzing) && progress == old(progress) && error == old(error)
      ensures !response.Accepted? ==> pending == None
      ensures !response.Accepted? ==> error == Some(FailureMessage(response)) && !analyzing && progress == 0
      ensures selectedFundus == old(selectedFundus) && selectedErg == old(selectedErg)
      ensures currentResult == old(currentResult)
    {
      if response.Accepted? {
        pending := Some(response.analysisId);
      } else {
        error := Some(FailureMessage(response));
        analyzing := false;
        progress := 0;
        pending := None;
      }
    }

    /** A whole run: the start, then the answer when a request was sent. */
    method RunMultimodalAnalysis(response: StartResponse) returns (pending: Option<string>)
      modifies this
      ensures old(selectedFundus) == "" || old(selectedErg) == "" ==>
        pending == None && error == Some(SelectBoth) && analyzing == old(analyzing) && progress == old(progress)
      ensures old(selectedFundus) != "" && old(selectedErg) != "" ==>
        (response.Accepted? ==> pending == Some(response.analysisId) && analyzing && progress == 0 && error == None)
        && (!response.Accepted? ==> pending == None && !analyzing && progress == 0 && error == Some(FailureMessage(response)))
      ensures currentResult == old(currentResult)
      ensures old(ProgressInRange()) ==> ProgressInRange()
    {
      var send := BeginRequest();
      if !send {
        pending := None;
        return;
      }
      pending := OnResponse(response);
    }

    /** One beat of the progress interval. */
    method Tick()
      modifies this
      ensures progress == ProgressStep(old(progress))
      ensures old(ProgressInRange()) ==> ProgressInRange()
      ensures analyzing == old(analyzing) && error == old(error) && currentResult == old(currentResult)
      ensures selectedFundus == old(selectedFundus) && selectedErg == old(selectedErg)
    {
      progress := ProgressStep(progress);
    }

    /** The completion timer: the bar fills and the fetched analysis is shown. */
    method Complete(fetched: Option<MultimodalRoute.AnalysisRow>)
      modifies this
      ensures progress == 100 && !analyzing && currentResult == fetched
      ensures ProgressInRange()
      ensures error == old(error)
      ensures selectedFundus == old(selectedFundus) && selectedErg == old(selectedErg)
    {
      progress := 100;
      currentResult := fetched;
      analyzing := false;
    }
  }

  /** An enabled button always gets past the selection guard. */
  lemma EnabledButtonPassesGuard(fundus: string, erg: string, analyzing: bool)
    requires !RunDisabled(fundus, erg, analyzing)
    ensures fundus != "" && erg != ""
  {
  }
}
