/**
 * The decision logic of `VoiceUploadResultScreen`: its own texts for the same three risk
 * bands, and which sections are shown. Its items box draws
 * exactly what `ImageUploadResult.SuspiciousItemsBox` draws.
 */
module VoiceUploadResult {
  import opened ImageUploadResult

  const HighResult := "보이스피싱 확률이 높습니다."
  const HighDescription := "범죄 의도가 있을 가능성이 높아요."
  const MediumResult := "보이스피싱 확률이 있습니다."
  const MediumDescription := "주의해서 확인해주세요."
  const LowResult := "보이스피싱 확률이 낮습니다."
  const LowDescription := "주요 의심 징후는 보이지 않습니다."

  /** The result line and description shown for a voice risk score, by its own `when (riskScore)`. */
  function VoiceVerdict(score: int): (r: (string, string))
    ensures 70 <= score <= 100 ==> r == (HighResult, HighDescription)
    ensures 45 <= score <= 69 ==> r == (MediumResult, MediumDescription)
    ensures score < 45 || score > 100 ==> r == (LowResult, LowDescription)
  {
    if 70 <= score <= 100 then (HighResult, HighDescription)
    else if 45 <= score <= 69 then (MediumResult, MediumDescription)
    else (LowResult, LowDescription)
  }

  /** The two screens draw their band boundaries at the same scores. */
  lemma SameBandsAsImageScreen(score: int)
    ensures VoiceVerdict(score).0 == HighResult <==> Verdict(score).0 == ImageUploadResult.HighResult
    ensures VoiceVerdict(score).0 == LowResult <==> Verdict(score).0 == ImageUploadResult.LowResult
    ensures VoiceVerdict(score).0 == MediumResult <==> Verdict(score).0 == ImageUploadResult.MediumResult
  {
    assert HighResult != LowResult && HighResult != MediumResult && MediumResult != LowResult by {
      assert HighResult[10] != LowResult[10] && HighResult[10] != MediumResult[10] && MediumResult[10] != LowResult[10];
    }
    assert ImageUploadResult.MediumResult != ImageUploadResult.HighResult by {
      assert ImageUploadResult.MediumResult[10] != ImageUploadResult.HighResult[10];
    }
    assert ImageUploadResult.MediumResult != ImageUploadResult.LowResult by {
      assert ImageUploadResult.MediumResult[10] != ImageUploadResult.LowResult[10];
    }
  }

  /** What the screen shows, top to bottom. */
  datatype Section =
    | RiskHeader(score: int, result: string, description: string)
    | TranscriptSection(text: string)
    | ItemsSection(rows: seq<Row>)
    | RetryPrompt

  /** The sections for a score, a transcript and the rows of the items box. */
  function Sections(score: int, transcript: string, rows: seq<Row>): (ss: seq<Section>)
    ensures |ss| >= 3
    ensures ss[0] == RiskHeader(score, VoiceVerdict(score).0, VoiceVerdict(score).1)
    ensures ss[|ss| - 1] == RetryPrompt && ss[|ss| - 2] == ItemsSection(rows)
    ensures (exists i | 0 <= i < |ss| :: ss[i].TranscriptSection?) <==> |transcript| > 0
    ensures forall i | 0 <= i < |ss| && ss[i].TranscriptSection? :: ss[i].text == transcript
  {
    var header := RiskHeader(score, VoiceVerdict(score).0, VoiceVerdict(score).1);
    if |transcript| > 0 then
      var ss := [header, TranscriptSection(transcript), ItemsSection(rows), RetryPrompt];
      assert ss[1].TranscriptSection?;
      ss
    else [header, ItemsSection(rows), RetryPrompt]
  }

  /** The sections other than transcript sections, in order. */
  function WithoutTranscript(ss: seq<Section>): (r: seq<Section>)
    ensures forall i | 0 <= i < |r| :: !r[i].TranscriptSection?
    ensures |r| <= |ss|
  {
    if ss == [] then []
    else (if ss[0].TranscriptSection? then [] else [ss[0]]) + WithoutTranscript(ss[1..])
  }

  /** A transcript adds its own section and nothing else: the rest is the screen of an empty transcript. */
  lemma TranscriptOnlyAddsItsSection(score: int, transcript: string, rows: seq<Row>)
    ensures WithoutTranscript(Sections(score, transcript, rows)) == Sections(score, "", rows)
  {
    var ss := Sections(score, transcript, rows);
    var header := RiskHeader(score, VoiceVerdict(score).0, VoiceVerdict(score).1);
    assert WithoutTranscript([RetryPrompt]) == [RetryPrompt];
    assert WithoutTranscript([ItemsSection(rows), RetryPrompt]) == [ItemsSection(rows), RetryPrompt] by {
      assert [ItemsSection(rows), RetryPrompt][1..] == [RetryPrompt];
    }
    if |transcript| > 0 {
      assert ss[1..] == [TranscriptSection(transcript), ItemsSection(rows), RetryPrompt];
      assert ss[1..][1..] == [ItemsSection(rows), RetryPrompt];
    } else {
      assert ss[1..] == [ItemsSection(rows), RetryPrompt];
    }
  }
}
