/** The scoring pass over the lead table (app.py:97-100): every row gets its
    score and summary columns, and the table is then ordered by CAIS,
    highest first. */
module Dataset {
  import opened Leads
  import opened Scoring
  import opened Insights

  /** One row through get_insights(*calculate_cais(row)), keeping the columns
      the source keeps (the 'CAIS_HTML' slot is dropped). */
  function ScoreLead(lead: Lead): (r: ScoredLead)
    ensures r.lead == lead
    ensures r.cais == ScoreOf(lead).cais && r.pain == ScoreOf(lead).pain && r.readiness == ScoreOf(lead).readiness
    ensures r.cais == r.pain + r.readiness && 0 <= r.cais <= 100
    ensures r.insight == GetInsights(r.cais, r.pain, r.readiness).summary
  {
    var score := ScoreOf(lead);
    var insight := GetInsights(score.cais, score.pain, score.readiness);
    ScoredLead(lead, insight.cais, insight.summary, insight.pain, insight.readiness)
  }

  /** A row whose derived columns are those the scorer gives its lead. */
  predicate WellScored(row: ScoredLead)
  {
    row == ScoreLead(row.lead)
  }

  /** df.apply over every row, in row order. */
  function ScoreAll(leads: seq<Lead>): (rows: seq<ScoredLead>)
    ensures |rows| == |leads|
    ensures forall i :: 0 <= i < |leads| ==> rows[i].lead == leads[i] && WellScored(rows[i])
  {
    seq(|leads|, i requires 0 <= i < |leads| => ScoreLead(leads[i]))
  }

  /** The order sort_values('CAIS', ascending=False) establishes. */
  predicate SortedByCaisDescending(rows: seq<ScoredLead>)
  {
    forall i, j :: 0 <= i < j < |rows| ==> rows[i].cais >= rows[j].cais
  }
}
