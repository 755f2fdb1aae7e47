/** The lead records that flow through the scorer: one row of the lead table
    before scoring, and the same row with the derived score columns added. */
module Leads {

  /** One prospective company, with the columns the mock generator fills in
      (app.py:91-95). Only `techStack`, `keywords` and `traffic` feed the score;
      `companySize` and `fundingStage` feed the filters; the rest is display-only. */
  datatype Lead = Lead(
    company: string,
    website: string,
    techStack: string,
    traffic: int,
    keywords: string,
    contactName: string,
    email: string,
    companySize: string,
    fundingStage: string)

  /** A lead with its derived columns: 'CAIS', 'AI-Actionable Insight',
      'Pain Point Score' and 'Readiness Score' (app.py:97-99). */
  datatype ScoredLead = ScoredLead(
    lead: Lead,
    cais: int,
    insight: string,
    pain: int,
    readiness: int)
}
