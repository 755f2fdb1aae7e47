/** The CAIS score of one lead (calculate_cais, app.py:24-43): a pain
    sub-score from operational-inefficiency signals and a readiness sub-score
    from traffic and tooling, each capped at 50, and their sum. */
module Scoring {
  import opened Text
  import opened Leads

  /** Ceiling applied to each sub-score. */
  const SubScoreCap := 50
  /** `basic website` counts as pain only below this traffic (strict). */
  const SmallSiteTraffic := 5000
  /** Traffic strictly above this earns the middle readiness tier. */
  const MidTierTraffic := 10000
  /** Traffic strictly above this earns the top readiness tier. */
  const TopTierTraffic := 100000

  /** The three values calculate_cais returns, in its order. */
  datatype Score = Score(cais: int, pain: int, readiness: int)

  // The individual rules, each a case-sensitive substring test.

  predicate ManualWorkSignal(keywords: string)
  {
    Contains(keywords, "manual") || Contains(keywords, "spreadsheet")
  }

  predicate LegacySystemSignal(techStack: string)
  {
    Contains(techStack, "old CMS") || Contains(techStack, "legacy ERP")
  }

  predicate SmallBasicSiteSignal(techStack: string, traffic: int)
  {
    Contains(techStack, "basic website") && traffic < SmallSiteTraffic
  }

  predicate CrmSignal(techStack: string)
  {
    Contains(techStack, "Salesforce") || Contains(techStack, "Hubspot")
  }

  predicate AnalyticsSignal(techStack: string)
  {
    Contains(techStack, "Google Analytics")
  }

  /** `points` when the rule fires, nothing otherwise. */
  function Bonus(fires: bool, points: nat): nat
  {
    if fires then points else 0
  }

  /** The non-stacking traffic tier: only the highest applicable tier pays. */
  function TrafficTierBonus(traffic: int): nat
  {
    if traffic > TopTierTraffic then 35 else if traffic > MidTierTraffic then 25 else 0
  }

  /** The tooling bonus: a CRM beats Google Analytics, which is only a fallback. */
  function ToolingBonus(techStack: string): nat
  {
    if CrmSignal(techStack) then 15 else if AnalyticsSignal(techStack) then 5 else 0
  }

  function Min(a: int, b: int): int
  {
    if a <= b then a else b
  }

  /** Pain before the cap: each rule adds its increment at most once. */
  function UncappedPain(keywords: string, techStack: string, traffic: int): nat
  {
    Bonus(ManualWorkSignal(keywords), 15)
      + Bonus(LegacySystemSignal(techStack), 10)
      + Bonus(SmallBasicSiteSignal(techStack, traffic), 15)
  }

  function UncappedReadiness(techStack: string, traffic: int): nat
  {
    TrafficTierBonus(traffic) + ToolingBonus(techStack)
  }

  /** The score of a lead, as a rule table: every sub-score is the capped sum of
      the rules that fire, and the composite is their sum. */
  function ScoreOf(lead: Lead): (s: Score)
    ensures 0 <= s.pain <= SubScoreCap && 0 <= s.readiness <= SubScoreCap
    ensures s.cais == s.pain + s.readiness && 0 <= s.cais <= 2 * SubScoreCap
  {
    var pain := Min(UncappedPain(lead.keywords, lead.techStack, lead.traffic), SubScoreCap);
    var readiness := Min(UncappedReadiness(lead.techStack, lead.traffic), SubScoreCap);
    Score(pain + readiness, pain, readiness)
  }

  /** calculate_cais as the source runs it: two counters bumped rule by rule,
      then capped and summed. */
  method CalculateCais(row: Lead) returns (cais: int, pain: int, readiness: int)
    ensures Score(cais, pain, readiness) == ScoreOf(row)
    ensures 0 <= pain <= 50 && 0 <= readiness <= 50 && 0 <= cais <= 100
  {
    pain, readiness := 0, 0;
    if Contains(row.keywords, "manual") || Contains(row.keywords, "spreadsheet") {
      pain := pain + 15;
    }
    if Contains(row.techStack, "old CMS") || Contains(row.techStack, "legacy ERP") {
      pain := pain + 10;
    }
    if Contains(row.techStack, "basic website") && row.traffic < 5000 {
      pain := pain + 15;
    }
    if row.traffic > 100000 {
      readiness := readiness + 35;
    } else if row.traffic > 10000 {
      readiness := readiness + 25;
    }
    if Contains(row.techStack, "Salesforce") || Contains(row.techStack, "Hubspot") {
      readiness := readiness + 15;
    } else if Contains(row.techStack, "Google Analytics") {
      readiness := readiness + 5;
    }
    pain := Min(pain, 50);
    readiness := Min(readiness, 50);
    cais := pain + readiness;
  }

  /** The caps never bind: the rules can add at most 40 pain and 50 readiness,
      so each sub-score is exactly the sum of the rules that fire. */
  lemma CapsNeverBind(lead: Lead)
    ensures ScoreOf(lead).pain == UncappedPain(lead.keywords, lead.techStack, lead.traffic) <= 40
    ensures ScoreOf(lead).readiness == UncappedReadiness(lead.techStack, lead.traffic)
  {
  }

  /** The reachable sub-score values. */
  lemma SubScoreValues(lead: Lead)
    ensures ScoreOf(lead).pain in {0, 10, 15, 25, 30, 40}
    ensures ScoreOf(lead).readiness in {0, 5, 15, 25, 30, 35, 40, 50}
  {
  }

  /** The score depends on the keywords, the tech stack and the traffic only. */
  lemma ScoreDependsOnSignalsOnly(a: Lead, b: Lead)
    requires a.keywords == b.keywords && a.techStack == b.techStack && a.traffic == b.traffic
    ensures ScoreOf(a) == ScoreOf(b)
  {
  }

  /** The traffic tiers are strict and do not stack: above 100000 adds exactly
      35, above 10000 up to and including 100000 adds exactly 25, and 10000 or
      less adds nothing. */
  lemma TrafficTiers(lead: Lead)
    ensures var tooling := ToolingBonus(lead.techStack);
      && (lead.traffic > 100000 ==> ScoreOf(lead).readiness == 35 + tooling)
      && (10000 < lead.traffic <= 100000 ==> ScoreOf(lead).readiness == 25 + tooling)
      && (lead.traffic <= 10000 ==> ScoreOf(lead).readiness == tooling)
  {
  }

  /** The tooling bonus is exclusive: 15 with Salesforce or Hubspot in the stack
      (the Google Analytics 5 is then not added), 5 with Google Analytics and
      neither CRM, 0 otherwise. */
  lemma ToolingExclusive(lead: Lead)
    ensures var tier := TrafficTierBonus(lead.traffic);
      && (CrmSignal(lead.techStack) ==> ScoreOf(lead).readiness == tier + 15)
      && (!CrmSignal(lead.techStack) && AnalyticsSignal(lead.techStack) ==> ScoreOf(lead).readiness == tier + 5)
      && (!CrmSignal(lead.techStack) && !AnalyticsSignal(lead.techStack) ==> ScoreOf(lead).readiness == tier)
  {
  }

  /** The pain rules as a table: a manual-work keyword ('manual', 'spreadsheet',
      or both) adds 15 once, a legacy system ('old CMS', 'legacy ERP', or both)
      adds 10 once, and a basic website adds 15 only while traffic is strictly
      below 5000; at 5000 and above it adds nothing. */
  lemma PainRules(lead: Lead)
    ensures var kw, ts := lead.keywords, lead.techStack;
      var base := (if Contains(kw, "manual") || Contains(kw, "spreadsheet") then 15 else 0)
                + (if Contains(ts, "old CMS") || Contains(ts, "legacy ERP") then 10 else 0);
      && (Contains(ts, "basic website") && lead.traffic < 5000 ==> ScoreOf(lead).pain == base + 15)
      && (!Contains(ts, "basic website") ==> ScoreOf(lead).pain == base)
      && (lead.traffic >= 5000 ==> ScoreOf(lead).pain == base)
  {
  }

  /** More traffic never lowers readiness and never raises pain. */
  lemma TrafficMonotone(a: Lead, b: Lead)
    requires a.keywords == b.keywords && a.techStack == b.techStack && a.traffic <= b.traffic
    ensures ScoreOf(a).readiness <= ScoreOf(b).readiness
    ensures ScoreOf(a).pain >= ScoreOf(b).pain
  {
  }
}
