/**
 * `VoiceAnalysisViewModel`: the same loading/result/error transitions as the document
 * analysis, with a string result that is never left null by an answer and its own
 * fallback texts. It has no reset.
 */
module VoiceAnalysisViewModel {
  import opened Wrappers
  import AnalysisViewModel

  const NoResult := "결과 없음"
  const UnknownError := "알 수 없는 오류 발생"

  type Voice = AnalysisViewModel.Analysis<string>

  /** `analyzeVoice`, and the repository's `onResult` and `onError` callbacks. */
  datatype VoiceEvent = AnalyzeVoice | Answered(res: Option<string>) | Errored(message: Option<string>)

  /** The shared transition each voice event makes. */
  function AsEvent(e: VoiceEvent): AnalysisViewModel.Event<string> {
    match e
    case AnalyzeVoice => AnalysisViewModel.Analyze
    case Answered(res) => AnalysisViewModel.Delivered(Some(res.GetOr(NoResult)))
    case Errored(m) => AnalysisViewModel.Failed(m)
  }

  function Step(s: Voice, e: VoiceEvent): (r: Voice)
    ensures e.Answered? ==> !r.loading && r.result == Some(e.res.GetOr(NoResult))
    ensures e.Errored? ==> !r.loading && r.error == Some(e.message.GetOr(UnknownError)) && r.result == s.result
    ensures e.AnalyzeVoice? ==> r.loading && r.error.None? && r.result == s.result
  {
    AnalysisViewModel.Apply(s, AsEvent(e), UnknownError)
  }

  function Run(s: Voice, es: seq<VoiceEvent>): Voice {
    if |es| == 0 then s else Step(Run(s, es[..|es| - 1]), es[|es| - 1])
  }

  /** Once any answer has arrived, a result is shown for good: no voice event clears it. */
  lemma {:induction false} ResultPersists(s: Voice, es: seq<VoiceEvent>)
    requires s.result.Some?
    ensures Run(s, es).result.Some?
  {
    if |es| > 0 {
      ResultPersists(s, es[..|es| - 1]);
    }
  }

  /** The voice run is the shared run over the events `AsEvent` maps, so its loading flag follows the latest request. */
  lemma {:induction false} RunIsSharedRun(s: Voice, es: seq<VoiceEvent>)
    ensures Run(s, es) == AnalysisViewModel.Run(s, seq(|es|, i requires 0 <= i < |es| => AsEvent(es[i])), UnknownError)
  {
    var ts := seq(|es|, i requires 0 <= i < |es| => AsEvent(es[i]));
    if |es| > 0 {
      var init := es[..|es| - 1];
      RunIsSharedRun(s, init);
      assert ts[..|ts| - 1] == seq(|init|, i requires 0 <= i < |init| => AsEvent(init[i]));
    }
  }

  /** Loading is on exactly when the latest voice event is a request. */
  lemma LoadingIffLastIsRequest(s: Voice, es: seq<VoiceEvent>)
    requires |es| > 0
    ensures Run(s, es).loading <==> es[|es| - 1].AnalyzeVoice?
  {
    var ts := seq(|es|, i requires 0 <= i < |es| => AsEvent(es[i]));
    RunIsSharedRun(s, es);
    AnalysisViewModel.LoadingTracksLastRequest(s, ts, UnknownError);
  }
}
