/**
 * The decision logic of `ImageUploadResultScreen`: the risk band a forgery score falls in
 * and its texts, the rows of the suspicious-items box, and the colours of the interactive
 * result button. Layout, padding and the score colour interpolation are not modelled.
 */
module ImageUploadResult {

  /** The three risk bands of the result screens' `when (score)`. */
  datatype Band = High | Medium | Low

  /** `in 70..100`, then `in 45..69`, then `else`. */
  function BandOf(score: int): (b: Band)
    ensures b == High <==> 70 <= score <= 100
    ensures b == Medium <==> 45 <= score <= 69
    ensures b == Low <==> score < 45 || score > 100
  {
    if 70 <= score <= 100 then High
    else if 45 <= score <= 69 then Medium
    else Low
  }

  function Severity(b: Band): nat {
    match b
    case Low => 0
    case Medium => 1
    case High => 2
  }

  /** Within the documented 0..100 range, a higher score never lands in a lower band. */
  lemma BandMonotone(a: int, b: int)
    requires 0 <= a <= b <= 100
    ensures Severity(BandOf(a)) <= Severity(BandOf(b))
  {
  }

  /** Outside that range the bands are not monotone: 101 drops back to the lowest band. */
  lemma BandWrapsAbove100()
    ensures BandOf(100) == High && BandOf(101) == Low
  {
  }

  const HighResult := "위조 문서 확률이 높습니다."
  const HighDescription := "보이스피싱 등 의심 용도로\n위조된 문서일 확률이 높습니다."
  const MediumResult := "위조 문서 확률이 있습니다."
  const MediumDescription := "위조된 문서일 가능성이 있으니\n주의 깊게 확인해주세요."
  const LowResult := "위조 문서 확률이 낮습니다."
  const LowDescription := "위조된 문서일 확률이 낮습니다.\n첨부한 사진을 다시 확인해주세요."

  /** The result line and description shown for a forgery score. */
  function Verdict(score: int): (r: (string, string))
    ensures r.0 == HighResult <==> BandOf(score) == High
    ensures r.0 == LowResult <==> BandOf(score) == Low
    ensures BandOf(score) == High ==> r.1 == HighDescription
    ensures BandOf(score) == Medium ==> r == (MediumResult, MediumDescription)
    ensures BandOf(score) == Low ==> r.1 == LowDescription
  {
    assert HighResult != LowResult && HighResult != MediumResult && MediumResult != LowResult by {
      assert HighResult[10] != LowResult[10] && HighResult[10] != MediumResult[10] && MediumResult[10] != LowResult[10];
    }
    match BandOf(score)
    case High => (HighResult, HighDescription)
    case Medium => (MediumResult, MediumDescription)
    case Low => (LowResult, LowDescription)
  }

  /** One suspicious item; `isCritical` does not change how it is drawn. */
  datatype SuspiciousItem = SuspiciousItem(description: string, isCritical: bool)

  /** What the items box draws, top to bottom. */
  datatype Row = ItemRow(description: string) | Gap | Placeholder(text: string)

  const NoItemsText := "탐지된 의심 항목이 없습니다."

  /** `SuspiciousItemsBox`: each item, a gap after every item but the last, and a placeholder when there are none. */
  method SuspiciousItemsBox(items: seq<SuspiciousItem>) returns (rows: seq<Row>)
    ensures |items| == 0 ==> rows == [Placeholder(NoItemsText)]
    ensures |items| > 0 ==> |rows| == 2 * |items| - 1
    ensures forall j | 0 <= j < |items| :: 2 * j < |rows| && rows[2 * j] == ItemRow(items[j].description)
    ensures forall j | 0 <= j < |items| - 1 :: rows[2 * j + 1] == Gap
  {
    rows := [];
    for index := 0 to |items|
      invariant |rows| == if index == |items| && index > 0 then 2 * index - 1 else 2 * index
      invariant forall j | 0 <= j < index :: rows[2 * j] == ItemRow(items[j].description)
      invariant forall j | 0 <= j < index && j < |items| - 1 :: rows[2 * j + 1] == Gap
    {
      rows := rows + [ItemRow(items[index].description)];
      if index < |items| - 1 {
        rows := rows + [Gap];
      }
    }
    if |items| == 0 {
      rows := rows + [Placeholder(NoItemsText)];
    }
  }

  /** The theme colours the result button uses. */
  datatype ThemeColor = Primary100 | Primary300 | Primary900

  /** `InteractiveResultButton`: container and content colours. */
  function ButtonColors(pressed: bool, hovered: bool): (c: (ThemeColor, ThemeColor))
    ensures c.0 == Primary900 <==> pressed || hovered
    ensures c.1 == Primary100 <==> pressed || hovered
    ensures c.0 != c.1
  {
    if pressed || hovered then (Primary900, Primary100) else (Primary300, Primary900)
  }

  /** Activating the button swaps its idle content colour into the background. */
  lemma ActiveButtonInverts(pressed: bool, hovered: bool)
    requires pressed || hovered
    ensures ButtonColors(pressed, hovered).0 == ButtonColors(false, false).1
  {
  }
}
