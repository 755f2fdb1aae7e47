/** Which rule patterns occur in the tag strings the scenarios use, one
    small group of facts per lemma. */
module ScenarioStrings {
  import opened Text

  lemma LegacyStackHasPain(stack: string)
    requires stack == "legacy ERP" + ", " + "no CRM" + ", " + "basic website"
    ensures Contains(stack, "legacy ERP") && Contains(stack, "basic website")
  {
    ContainsAt(stack, "legacy ERP", 0);
    ContainsAt(stack, "basic website", 20);
  }

  lemma LegacyStackHasNoCrm(stack: string)
    requires stack == "legacy ERP" + ", " + "no CRM" + ", " + "basic website"
    ensures !Contains(stack, "Salesforce") && !Contains(stack, "Hubspot")
  {
    AbsentChar(stack, "Salesforce", 0, 'S');
    AbsentChar(stack, "Hubspot", 0, 'H');
  }

  lemma LegacyStackHasNoAnalytics(stack: string)
    requires stack == "legacy ERP" + ", " + "no CRM" + ", " + "basic website"
    ensures !Contains(stack, "Google Analytics")
  {
    AbsentChar(stack, "Google Analytics", 0, 'G');
  }

  lemma ModernStackHasNoLegacy(stack: string)
    requires stack == "Salesforce" + ", " + "modern stack" + ", " + "Tableau"
    ensures !Contains(stack, "old CMS") && !Contains(stack, "legacy ERP")
  {
    AbsentChar(stack, "old CMS", 4, 'C');
    AbsentChar(stack, "legacy ERP", 2, 'g');
  }

  lemma ModernStackHasNoBasicWebsite(stack: string)
    requires stack == "Salesforce" + ", " + "modern stack" + ", " + "Tableau"
    ensures !Contains(stack, "basic website")
  {
    AbsentChar(stack, "basic website", 3, 'i');
  }

  lemma AnalyticsStackHasNoLegacy(stack: string)
    requires stack == "Shopify" + ", " + "Google Analytics"
    ensures !Contains(stack, "old CMS") && !Contains(stack, "legacy ERP")
  {
    AbsentChar(stack, "old CMS", 4, 'C');
    AbsentChar(stack, "legacy ERP", 7, 'E');
  }

  lemma AnalyticsStackHasNoBasicWebsite(stack: string)
    requires stack == "Shopify" + ", " + "Google Analytics"
    ensures !Contains(stack, "basic website")
  {
    AbsentChar(stack, "basic website", 6, 'w');
  }

  lemma AnalyticsStackHasNoCrm(stack: string)
    requires stack == "Shopify" + ", " + "Google Analytics"
    ensures !Contains(stack, "Salesforce") && !Contains(stack, "Hubspot")
  {
    AbsentChar(stack, "Salesforce", 7, 'r');
    AbsentChar(stack, "Hubspot", 0, 'H');
  }

  lemma ScaleKeywordsHaveNoPain(keywords: string)
    requires keywords == "AI" + ", " + "market leader" + ", " + "scale"
    ensures !Contains(keywords, "manual") && !Contains(keywords, "spreadsheet")
  {
    AbsentChar(keywords, "manual", 3, 'u');
    AbsentChar(keywords, "spreadsheet", 1, 'p');
  }

  lemma BothPainKeywordsPresent(keywords: string)
    requires keywords == "spreadsheet accounting" + ", " + "manual reporting"
    ensures Contains(keywords, "manual") && Contains(keywords, "spreadsheet")
  {
    ContainsAt(keywords, "spreadsheet", 0);
    ContainsAt(keywords, "manual", 24);
  }

  /** 'HubSpot' occurs only at the end, and differs from 'Hubspot' in case. */
  lemma HubSpotStackHasNoHubspot(stack: string)
    requires stack == "modern stack" + ", " + "custom billing" + ", " + "HubSpot"
    ensures !Contains(stack, "Hubspot")
  {
    AbsentChar("HubSpot", "Hubspot", 3, 's');
    AbsentAfterPrefix("modern stack" + ", " + "custom billing" + ", ", "HubSpot", "Hubspot");
  }

  lemma HubSpotStackHasNoOtherTool(stack: string)
    requires stack == "modern stack" + ", " + "custom billing" + ", " + "HubSpot"
    ensures !Contains(stack, "Salesforce") && !Contains(stack, "Google Analytics")
  {
    AbsentChar(stack, "Salesforce", 5, 'f');
    AbsentChar(stack, "Google Analytics", 0, 'G');
  }
}

/** Worked examples on tech stacks and keyword strings that the mock data
    generator draws from (app.py:61-77), written as their comma-separated
    tags. Each lemma takes any lead with the given scoring fields, so it also
    shows that the other columns play no part. */
module Scenarios {
  import opened Text
  import opened ScenarioStrings
  import opened Leads
  import opened Scoring
  import opened Insights
  import opened Dataset
  import opened Filters

  /** A legacy small business: every pain rule fires, no readiness rule does,
      and the CAIS of 40 is LOW. */
  lemma LegacySmallBusiness(lead: Lead)
    requires lead.techStack == "legacy ERP" + ", " + "no CRM" + ", " + "basic website"
    requires lead.keywords == "manual reporting" + ", " + "high growth"
    requires lead.traffic == 3000
    ensures ScoreOf(lead) == Score(40, 40, 0)
    ensures ScoreLead(lead).insight == LowSummary
  {
    LegacyStackHasPain(lead.techStack);
    LegacyStackHasNoCrm(lead.techStack);
    LegacyStackHasNoAnalytics(lead.techStack);
    ContainsAt(lead.keywords, "manual", 0);
  }

  /** A large modern company: the top traffic tier plus the CRM bonus reach
      the readiness cap exactly, and a CAIS of 50 is already MEDIUM. */
  lemma ModernMarketLeader(lead: Lead)
    requires lead.techStack == "Salesforce" + ", " + "modern stack" + ", " + "Tableau"
    requires lead.keywords == "AI" + ", " + "market leader" + ", " + "scale"
    requires lead.traffic == 150000
    ensures ScoreOf(lead) == Score(50, 0, 50)
    ensures ScoreLead(lead).insight == MediumSummary(0)
  {
    ModernStackHasNoLegacy(lead.techStack);
    ModernStackHasNoBasicWebsite(lead.techStack);
    ContainsAt(lead.techStack, "Salesforce", 0);
    ScaleKeywordsHaveNoPain(lead.keywords);
  }

  /** A threshold of 75 keeps neither of the two leads above, whatever the
      company-size selection. */
  lemma HighThresholdKeepsNeither(a: Lead, b: Lead, sizes: seq<string>)
    requires a.techStack == "legacy ERP" + ", " + "no CRM" + ", " + "basic website"
    requires a.keywords == "manual reporting" + ", " + "high growth"
    requires a.traffic == 3000
    requires b.techStack == "Salesforce" + ", " + "modern stack" + ", " + "Tableau"
    requires b.keywords == "AI" + ", " + "market leader" + ", " + "scale"
    requires b.traffic == 150000
    ensures Filter([ScoreLead(a), ScoreLead(b)], Criteria(FilterSettings(75, [], sizes, []))) == []
  {
    LegacySmallBusiness(a);
    ModernMarketLeader(b);
    var rows := [ScoreLead(a), ScoreLead(b)];
    var cs := Criteria(FilterSettings(75, [], sizes, []));
    assert cs[0] == AtLeast(75);
    assert Filter(rows, cs) == Filter(rows[1..], cs) == Filter(rows[2..], cs);
  }

  /** The mock stack spells the CRM 'HubSpot', the rule looks for 'Hubspot',
      and the test is case-sensitive: this stack earns no tooling bonus, so
      its readiness is the traffic tier alone. */
  lemma HubSpotStackEarnsNoToolingBonus(lead: Lead)
    requires lead.techStack == "modern stack" + ", " + "custom billing" + ", " + "HubSpot"
    ensures !CrmSignal(lead.techStack)
    ensures ToolingBonus(lead.techStack) == 0
    ensures ScoreOf(lead).readiness == TrafficTierBonus(lead.traffic)
  {
    HubSpotStackHasNoHubspot(lead.techStack);
    HubSpotStackHasNoOtherTool(lead.techStack);
  }

  /** Both pain keywords present still add 15 only once; Google Analytics
      earns the fallback 5 beside the middle traffic tier. */
  lemma PainRuleCountsOnce(lead: Lead)
    requires lead.techStack == "Shopify" + ", " + "Google Analytics"
    requires lead.keywords == "spreadsheet accounting" + ", " + "manual reporting"
    requires lead.traffic == 20000
    ensures Contains(lead.keywords, "manual") && Contains(lead.keywords, "spreadsheet")
    ensures ScoreOf(lead) == Score(45, 15, 30)
  {
    AnalyticsStackHasNoLegacy(lead.techStack);
    AnalyticsStackHasNoBasicWebsite(lead.techStack);
    AnalyticsStackHasNoCrm(lead.techStack);
    ContainsAt(lead.techStack, "Google Analytics", 9);
    BothPainKeywordsPresent(lead.keywords);
  }
}
