/** The progress label of the processing overlay
    (components/ProcessingOverlay.tsx, `getStatusText`). */
module ProcessingOverlay {
  import opened Types

  const AnalyzingUserLabel: string := "分析人物特徵中"
  const AnalyzingClothLabel: string := "解構服裝細節中"
  const GeneratingLabel: string := "正在為您合成專屬穿搭"
  const ProcessingLabel: string := "處理中"

  /** The label for a step: a specific one for each of the three calls in
      flight, and the generic one for every other step. */
  function StatusText(step: AppStep): (text: string)
    ensures text == ProcessingLabel <==> !(step.AnalyzingUser? || step.AnalyzingCloth? || step.Generating?)
  {
    assert AnalyzingUserLabel[0] != ProcessingLabel[0];
    assert AnalyzingClothLabel[0] != ProcessingLabel[0];
    assert GeneratingLabel[0] != ProcessingLabel[0];
    match step
    case AnalyzingUser => AnalyzingUserLabel
    case AnalyzingCloth => AnalyzingClothLabel
    case Generating => GeneratingLabel
    case _ => ProcessingLabel
  }

  /** Each in-flight step has its own label, and the three are told apart. */
  lemma InFlightLabels()
    ensures StatusText(AnalyzingUser) == "分析人物特徵中"
    ensures StatusText(AnalyzingCloth) == "解構服裝細節中"
    ensures StatusText(Generating) == "正在為您合成專屬穿搭"
    ensures StatusText(AnalyzingUser) != StatusText(AnalyzingCloth)
    ensures StatusText(AnalyzingUser) != StatusText(Generating)
    ensures StatusText(AnalyzingCloth) != StatusText(Generating)
  {
    assert AnalyzingUserLabel[0] != AnalyzingClothLabel[0];
    assert AnalyzingUserLabel[0] != GeneratingLabel[0];
    assert AnalyzingClothLabel[0] != GeneratingLabel[0];
  }
}
