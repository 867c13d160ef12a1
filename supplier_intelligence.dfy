/** The supplier risk-profile workflow (backend/app/supplier/intelligence.py): gather provider data,
    ask the analyst model for a sentiment reading, derive a profile and the supplier's risk score. */
module SupplierIntelligence {
  import opened Wrappers
  import opened SupplierMock

  /** The analyst's JSON assessment; a reply may leave a key out. */
  datatype Analysis = Analysis(sentimentScore: Option<real>, riskSummary: Option<string>, recommendedAction: Option<string>)

  /** What `_analyze_sentiment_and_risk` returns when the model call fails for any reason. */
  const FallbackAnalysis := Analysis(Some(0.0), Some("Automated analysis failed."), Some("MONITOR"))

  const MissingDuns := "000000000"
  const ScreeningCountry := "US"

  /** `_analyze_sentiment_and_risk`: the model's parsed reply, or the fallback; never a failure. */
  function AnalyzeSentimentAndRisk(reply: Result<Analysis, string>): (r: Analysis)
    ensures reply.Success? ==> r == reply.value
    ensures reply.Failure? ==> r.sentimentScore == Some(0.0) && r.recommendedAction == Some("MONITOR")
                               && r.riskSummary == Some("Automated analysis failed.")
  {
    match reply
    case Success(a) => a
    case Failure(_) => FallbackAnalysis
  }

  /** The three lookups of a supplier data provider. */
  datatype Provider = Provider(
    financialHealth: string -> Financials,
    marketNews: string -> seq<NewsItem>,
    checkCompliance: (string, string) -> Compliance)

  /** The provider the factory hands out. */
  const Mock := Provider(GetFinancialHealth, GetMarketNews, CheckCompliance)

  /** A supplier row; only its risk score changes here. */
  class Supplier {
    const id: string
    const name: string
    const lei: Option<string>
    var riskScore: real

    constructor (id: string, name: string, lei: Option<string>)
      ensures this.id == id && this.name == name && this.lei == lei && riskScore == 0.0
    {
      this.id, this.name, this.lei := id, name, lei;
      riskScore := 0.0;
    }
  }

  /** `supplier.lei or "000000000"`. */
  function Duns(lei: Option<string>): (r: string)
    ensures lei.Some? && lei.value != "" ==> r == lei.value
    ensures lei.None? || lei.value == "" ==> r == MissingDuns
    ensures r != ""
  {
    if lei.Some? && lei.value != "" then lei.value else MissingDuns
  }

  /** The data gathered for one supplier. */
  datatype ExternalData = ExternalData(financials: Financials, news: seq<NewsItem>, compliance: Compliance)

  function Gather(provider: Provider, name: string, lei: Option<string>): (d: ExternalData)
    ensures d.financials == provider.financialHealth(Duns(lei))
    ensures d.news == provider.marketNews(name)
    ensures d.compliance == provider.checkCompliance(name, ScreeningCountry)
  {
    ExternalData(provider.financialHealth(Duns(lei)), provider.marketNews(name),
                 provider.checkCompliance(name, ScreeningCountry))
  }

  predicate Negative(item: NewsItem) {
    item.sentiment == Some("negative")
  }

  /** `adverse_media_count`: the negative headlines, counted from the back. */
  function AdverseMediaCount(news: seq<NewsItem>): (n: nat)
    ensures n <= |news|
    ensures n == 0 <==> forall i :: 0 <= i < |news| ==> !Negative(news[i])
  {
    if news == [] then 0
    else AdverseMediaCount(news[..|news| - 1]) + (if Negative(news[|news| - 1]) then 1 else 0)
  }

  /** The positions of the negative headlines. */
  function NegativePositions(news: seq<NewsItem>): set<nat> {
    set i: nat | i < |news| && Negative(news[i])
  }

  /** The count is the number of positions holding a negative headline. */
  lemma {:induction false} AdverseMediaCountIsPositions(news: seq<NewsItem>)
    ensures AdverseMediaCount(news) == |NegativePositions(news)|
  {
    if news != [] {
      var front := news[..|news| - 1];
      AdverseMediaCountIsPositions(front);
      var last := |news| - 1;
      assert NegativePositions(news) ==
             NegativePositions(front) + (if Negative(news[last]) then {last} else {});
    }
  }

  /** Counting distributes over concatenation of headline lists. */
  lemma {:induction false} AdverseMediaCountAppend(a: seq<NewsItem>, b: seq<NewsItem>)
    ensures AdverseMediaCount(a + b) == AdverseMediaCount(a) + AdverseMediaCount(b)
    decreases |b|
  {
    if b != [] {
      var b' := b[..|b| - 1];
      assert (a + b)[..|a + b| - 1] == a + b';
      AdverseMediaCountAppend(a, b');
    } else {
      assert a + b == a;
    }
  }

  /** `min(max(x, 0.0), 100.0)`. */
  function Clamp(x: real): (r: real)
    ensures 0.0 <= r <= 100.0
    ensures 0.0 <= x <= 100.0 ==> r == x
    ensures x < 0.0 ==> r == 0.0
    ensures x > 100.0 ==> r == 100.0
  {
    if x < 0.0 then 0.0 else if x > 100.0 then 100.0 else x
  }

  /** The weighted blend before the clamp: financial risk `100 - stress` (stress defaults to 50), sentiment risk
      `(1 - sentiment) * 50` (sentiment defaults to 0), weighted 0.6 and 0.4; a sanctions flag forces 100. */
  function CombinedRisk(fin: Financials, analysis: Analysis, compliance: Compliance): (r: real)
    ensures compliance.sanctionsFlag == Some(true) ==> r == 100.0
    ensures (compliance.sanctionsFlag != Some(true) && fin.stressScore == Some(100)
             && analysis.sentimentScore == Some(1.0)) ==> r == 0.0
    ensures (compliance.sanctionsFlag != Some(true) && fin.stressScore == Some(0)
             && analysis.sentimentScore == Some(-1.0)) ==> r == 100.0
  {
    if compliance.sanctionsFlag == Some(true) then 100.0
    else
      var finRisk := (100 - fin.stressScore.GetOr(50)) as real;
      var sentimentRisk := (1.0 - analysis.sentimentScore.GetOr(0.0)) * 50.0;
      finRisk * 0.6 + sentimentRisk * 0.4
  }

  /** The stored `risk_score`. */
  function RiskScore(fin: Financials, analysis: Analysis, compliance: Compliance): (r: real)
    ensures 0.0 <= r <= 100.0
    ensures compliance.sanctionsFlag == Some(true) ==> r == 100.0
  {
    Clamp(CombinedRisk(fin, analysis, compliance))
  }

  /** Within the documented ranges (stress 0..100, sentiment -1..1) the clamp never bites. */
  lemma BlendInRange(fin: Financials, analysis: Analysis, compliance: Compliance)
    requires 0 <= fin.stressScore.GetOr(50) <= 100
    requires -1.0 <= analysis.sentimentScore.GetOr(0.0) <= 1.0
    ensures 0.0 <= CombinedRisk(fin, analysis, compliance) <= 100.0
    ensures RiskScore(fin, analysis, compliance) == CombinedRisk(fin, analysis, compliance)
  {
  }

  /** Better financial health (a higher stress score) never raises the risk score. */
  lemma {:induction false} RiskFallsWithFinancialHealth(s1: int, s2: int, analysis: Analysis, compliance: Compliance)
    requires s1 <= s2
    ensures RiskScore(Financials(Some(s2), None, None), analysis, compliance)
            <= RiskScore(Financials(Some(s1), None, None), analysis, compliance)
  {
  }

  /** Better news sentiment never raises the risk score. */
  lemma {:induction false} RiskFallsWithSentiment(fin: Financials, m1: real, m2: real, compliance: Compliance)
    requires m1 <= m2
    ensures RiskScore(fin, Analysis(Some(m2), None, None), compliance)
            <= RiskScore(fin, Analysis(Some(m1), None, None), compliance)
  {
  }

  /** The persisted risk-profile row (the retrieval time-stamp is not modelled). */
  datatype RiskProfile = RiskProfile(
    supplierId: string,
    financialStressScore: int,
    creditRating: string,
    sanctionsFlag: bool,
    sanctionsListMatch: Option<string>,
    newsSentimentScore: real,
    adverseMediaCount: nat)

  /** The profile built from the gathered data and the analysis, with the row's own defaults. */
  function Profile(supplierId: string, data: ExternalData, analysis: Analysis): (p: RiskProfile)
    ensures p.supplierId == supplierId
    ensures p.adverseMediaCount == |NegativePositions(data.news)|
    ensures data.financials.stressScore.None? ==> p.financialStressScore == 0
    ensures data.financials.creditRating.None? ==> p.creditRating == "N/A"
    ensures p.sanctionsFlag <==> data.compliance.sanctionsFlag == Some(true)
  {
    AdverseMediaCountIsPositions(data.news);
    RiskProfile(
      supplierId,
      data.financials.stressScore.GetOr(0),
      data.financials.creditRating.GetOr("N/A"),
      data.compliance.sanctionsFlag.GetOr(false),
      data.compliance.listMatch,
      analysis.sentimentScore.GetOr(0.0),
      AdverseMediaCount(data.news))
  }

  /** A missing stress score is stored as 0 in the profile but scored as 50. */
  lemma MissingStressDefaultsDisagree(supplierId: string, data: ExternalData, analysis: Analysis)
    requires data.financials.stressScore.None?
    ensures Profile(supplierId, data, analysis).financialStressScore == 0
    ensures RiskScore(data.financials, analysis, data.compliance)
            == RiskScore(data.financials.(stressScore := Some(50)), analysis, data.compliance)
  {
  }

  /** `update_supplier_risk_profile`: an unknown supplier is a ValueError before any provider call; otherwise
      the profile is built and the supplier's score is replaced. */
  method UpdateSupplierRiskProfile(supplierId: string, supplier: Supplier?, provider: Provider,
                                   analysisReply: Result<Analysis, string>)
    returns (r: Result<RiskProfile, string>)
    requires supplier != null ==> supplier.id == supplierId
    modifies supplier
    ensures supplier == null ==> r == Failure("Supplier " + supplierId + " not found")
    ensures supplier != null ==>
              var data := Gather(provider, supplier.name, supplier.lei);
              var analysis := AnalyzeSentimentAndRisk(analysisReply);
              && r == Success(Profile(supplierId, data, analysis))
              && supplier.riskScore == RiskScore(data.financials, analysis, data.compliance)
    ensures supplier != null ==> 0.0 <= supplier.riskScore <= 100.0
  {
    if supplier == null {
      return Failure("Supplier " + supplierId + " not found");
    }
    var data := Gather(provider, supplier.name, supplier.lei);
    var analysis := AnalyzeSentimentAndRisk(analysisReply);
    var profile := Profile(supplier.id, data, analysis);
    supplier.riskScore := RiskScore(data.financials, analysis, data.compliance);
    r := Success(profile);
  }

  /** The unit-test flow: stress 20, one negative headline, no sanctions, sentiment -0.5. */
  lemma IntelligenceFlowScenario()
    ensures var data := ExternalData(Financials(Some(20), Some("CC"), None),
                                     [NewsItem("", "", Some("negative"))], Compliance(Some(false), None));
            var analysis := Analysis(Some(-0.5), Some("Bad news detected."), Some("HOLD"));
            var p := Profile("s1", data, analysis);
            && p.financialStressScore == 20 && p.newsSentimentScore == -0.5 && p.adverseMediaCount == 1
            && RiskScore(data.financials, analysis, data.compliance) == 78.0
  {
  }

  /** With the mock provider, a "999" identifier and a "Risky" name score high risk without any sanctions. */
  lemma MockHighRiskSupplier(name: string, analysis: Analysis)
    requires Troubled(name) && !Text.Contains(name, "Sanctioned")
    requires -1.0 <= analysis.sentimentScore.GetOr(0.0) <= 1.0
    ensures var data := Gather(Mock, name, Some("999123456"));
            && Profile("s", data, analysis).adverseMediaCount == 2
            && !Profile("s", data, analysis).sanctionsFlag
            && RiskScore(data.financials, analysis, data.compliance) >= 45.0
  {
    ScenarioNames();
    var data := Gather(Mock, name, Some("999123456"));
    assert data.financials.stressScore == Some(25);
    AdverseMediaCountIsPositions(data.news);
    assert AdverseMediaCount(data.news) == 2;
  }
}
