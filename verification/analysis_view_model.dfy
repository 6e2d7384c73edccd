/**
 * `AnalysisViewModel`: the loading flag, result and error of a document analysis. The
 * request runs in a coroutine whose callbacks post their values later; the model makes
 * each callback an event. `VoiceAnalysisViewModel` shares the same transitions.
 */
module AnalysisViewModel {
  import opened Wrappers

  const AnalysisFailed := "분석 실패"

  /** The three LiveData values; `result` and `error` start unset. */
  datatype Analysis<R> = Analysis(loading: bool, result: Option<R>, error: Option<string>)

  function Initial<R>(): Analysis<R> {
    Analysis(false, None, None)
  }

  /** A request, the repository's `onResult` or `onError` callback, or `resetResult`. */
  datatype Event<R> = Analyze | Delivered(res: Option<R>) | Failed(message: Option<string>) | Reset

  /** One event, with `errorFallback` shown for an error without a message. */
  function Apply<R>(s: Analysis<R>, e: Event<R>, errorFallback: string): (r: Analysis<R>)
    ensures e.Analyze? ==> r.loading && r.error.None? && r.result == s.result
    ensures e.Delivered? ==> !r.loading && r.result == e.res && r.error == s.error
    ensures e.Failed? ==> !r.loading && r.error == Some(e.message.GetOr(errorFallback)) && r.result == s.result
    ensures e.Reset? ==> r.loading == s.loading && r.result.None? && r.error.None?
  {
    match e
    case Analyze => s.(loading := true, error := None)
    case Delivered(res) => s.(loading := false, result := res)
    case Failed(m) => s.(loading := false, error := Some(m.GetOr(errorFallback)))
    case Reset => s.(result := None, error := None)
  }

  /** A run of events from `s`. */
  function Run<R>(s: Analysis<R>, es: seq<Event<R>>, errorFallback: string): Analysis<R>
  {
    if |es| == 0 then s
    else Apply(Run(s, es[..|es| - 1], errorFallback), es[|es| - 1], errorFallback)
  }

  /** Whether the latest request-related event (ignoring resets) was a request, if there was one. */
  function LastRequestPending<R>(es: seq<Event<R>>): Option<bool>
  {
    if |es| == 0 then None
    else match es[|es| - 1]
      case Analyze => Some(true)
      case Delivered(_) => Some(false)
      case Failed(_) => Some(false)
      case Reset => LastRequestPending(es[..|es| - 1])
  }

  /** The loading flag is on exactly when the latest request has not been answered yet. */
  lemma {:induction false} LoadingTracksLastRequest<R>(s: Analysis<R>, es: seq<Event<R>>, errorFallback: string)
    ensures Run(s, es, errorFallback).loading == LastRequestPending(es).GetOr(s.loading)
  {
    if |es| > 0 {
      LoadingTracksLastRequest(s, es[..|es| - 1], errorFallback);
    }
  }

  /** `analyzeDocument` and its callbacks. */
  function Step<R>(s: Analysis<R>, e: Event<R>): (r: Analysis<R>)
    ensures e.Failed? && e.message.None? ==> r.error == Some(AnalysisFailed)
  {
    Apply(s, e, AnalysisFailed)
  }

  /** A new request keeps showing the previous result until its own answer arrives. */
  lemma AnalyzeKeepsPreviousResult<R>(s: Analysis<R>, previous: R)
    requires s.result == Some(previous)
    ensures Step(s, Analyze).result == Some(previous) && Step(s, Analyze).loading
  {
  }

  /** `resetResult` after any answer returns the screen to its initial values. */
  lemma ResetAfterAnswer<R>(s: Analysis<R>, e: Event<R>)
    requires e.Delivered? || e.Failed?
    ensures Step(Step(s, e), Reset) == Initial()
  {
  }
}
