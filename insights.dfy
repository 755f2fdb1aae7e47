/** The fit summary of a score (get_insights, app.py:45-52). */
module Insights {
  import opened Text

  datatype Option<T> = None | Some(value: T)

  /** The five values get_insights returns, in its order; the second slot
      (the 'CAIS_HTML' column, dropped afterwards) is always None. */
  datatype Insight = Insight(cais: int, html: Option<string>, summary: string, pain: int, readiness: int)

  /** Each summary opens with its fit tier. */
  const HighTag := "HIGH FIT:"
  const MediumTag := "MEDIUM FIT:"
  const LowTag := "LOW FIT:"

  const HighSummary := HighTag + " Major scale + clear operational pain. Target fast AI integration for ROI."
  const MediumPrefix := MediumTag + " Some transformation headroom. Focus on pain point ("
  const MediumSuffix := "/50)."
  const LowSummary := LowTag + " Minimal visible opportunity. Reassess in future."

  /** The medium summary interpolates the pain score, as str() renders it. */
  function MediumSummary(pain: int): (s: string)
    ensures |s| > |MediumPrefix| + |MediumSuffix| && s[0] == 'M'
  {
    var s := MediumPrefix + IntToDecimal(pain) + MediumSuffix;
    assert s[0] == MediumPrefix[0];
    s
  }

  /** Threshold of the high tier (inclusive). */
  const HighFit := 75
  /** Threshold of the medium tier (inclusive). */
  const MediumFit := 50

  /** HIGH exactly from 75 up, MEDIUM exactly from 50 up to 74, LOW below 50;
      the numbers pass through unchanged. */
  function GetInsights(cais: int, pain: int, readiness: int): (r: Insight)
    ensures r.cais == cais && r.html == None && r.pain == pain && r.readiness == readiness
    ensures r.summary == HighSummary <==> cais >= HighFit
    ensures r.summary == MediumSummary(pain) <==> MediumFit <= cais < HighFit
    ensures r.summary == LowSummary <==> cais < MediumFit
  {
    var summary :=
      if cais >= 75 then HighSummary
      else if cais >= 50 then MediumSummary(pain)
      else LowSummary;
    // the three summaries differ in their first letter
    assert HighSummary[0] == 'H' && MediumSummary(pain)[0] == 'M' && LowSummary[0] == 'L';
    Insight(cais, None, summary, pain, readiness)
  }

  /** The pain score can be read back out of a medium summary. */
  lemma MediumSummaryNamesPain(cais: int, pain: int, readiness: int)
    requires MediumFit <= cais < HighFit
    ensures var s := GetInsights(cais, pain, readiness).summary;
      && |s| > |MediumPrefix| + |MediumSuffix|
      && s[..|MediumPrefix|] == MediumPrefix
      && s[|s| - |MediumSuffix|..] == MediumSuffix
      && IsDecimal(s[|MediumPrefix|..|s| - |MediumSuffix|])
      && ParseInt(s[|MediumPrefix|..|s| - |MediumSuffix|]) == pain
  {
    var s := GetInsights(cais, pain, readiness).summary;
    assert s[|MediumPrefix|..|s| - |MediumSuffix|] == IntToDecimal(pain);
    IntToDecimalRoundTrip(pain);
  }
}
