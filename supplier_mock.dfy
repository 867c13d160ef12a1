/** The deterministic data provider (backend/app/supplier/adapters/mock.py) and the shapes of the
    data every provider returns: financial health, market news and sanctions screening. */
module SupplierMock {
  import opened Wrappers
  import opened Text

  /** The financial-health dictionary; a provider may leave a key out. */
  datatype Financials = Financials(stressScore: Option<int>, creditRating: Option<string>, riskClass: Option<string>)

  /** One news headline. */
  datatype NewsItem = NewsItem(title: string, source: string, sentiment: Option<string>)

  /** The sanctions-screening dictionary. */
  datatype Compliance = Compliance(sanctionsFlag: Option<bool>, listMatch: Option<string>)

  const HighRiskPrefix := "999"
  const SanctionedCountries := {"KP", "RU", "IR"}
  const OfacList := "OFAC SDN List"

  /** `get_financial_health`: a DUNS starting with "999" is the high-risk scenario. The literal there writes
      `financial_stress_score` twice (10, then 25); the later value is the one the dictionary keeps. */
  function GetFinancialHealth(duns: string): (r: Financials)
    ensures r.riskClass == Some("High") <==> StartsWith(duns, HighRiskPrefix)
    ensures StartsWith(duns, HighRiskPrefix) ==> r.stressScore == Some(25) && r.creditRating == Some("CC")
    ensures !StartsWith(duns, HighRiskPrefix) ==>
              r.stressScore == Some(85) && r.creditRating == Some("5A1") && r.riskClass == Some("Low")
  {
    if StartsWith(duns, HighRiskPrefix) then
      // The literal writes the stress key twice (10, then 25); Python keeps the later value.
      Financials(Some(25), Some("CC"), Some("High"))
    else
      Financials(Some(85), Some("5A1"), Some("Low"))
  }

  /** A name the news scenario treats as troubled. */
  predicate Troubled(name: string) {
    Contains(name, "Risky") || Contains(name, "Volatile")
  }

  /** `get_market_news`: two negative headlines for a troubled name, else two positive ones for a "Green"
      name, else none; every headline names the company. */
  function GetMarketNews(name: string): (r: seq<NewsItem>)
    ensures Troubled(name) ==> |r| == 2 && forall i :: 0 <= i < 2 ==> r[i].sentiment == Some("negative")
    ensures !Troubled(name) && Contains(name, "Green") ==>
              |r| == 2 && forall i :: 0 <= i < 2 ==> r[i].sentiment == Some("positive")
    ensures !Troubled(name) && !Contains(name, "Green") ==> r == []
    ensures forall i :: 0 <= i < |r| ==> Contains(r[i].title, name) && r[i].source == "MockNews"
  {
    ContainsPrefix(name, " faces class action lawsuit over fraud");
    ContainsMiddle("CEO of ", name, " steps down amid scandal");
    ContainsPrefix(name, " wins sustainability award");
    ContainsPrefix(name, " expands into new markets");
    if Troubled(name) then
      [NewsItem(name + " faces class action lawsuit over fraud", "MockNews", Some("negative")),
       NewsItem("CEO of " + name + " steps down amid scandal", "MockNews", Some("negative"))]
    else if Contains(name, "Green") then
      [NewsItem(name + " wins sustainability award", "MockNews", Some("positive")),
       NewsItem(name + " expands into new markets", "MockNews", Some("positive"))]
    else
      []
  }

  /** `check_compliance`: flagged, with the OFAC list, exactly for a sanctioned country or a "Sanctioned" name. */
  function CheckCompliance(name: string, countryCode: string): (r: Compliance)
    ensures r.sanctionsFlag == Some(countryCode in SanctionedCountries || Contains(name, "Sanctioned"))
    ensures r.listMatch == if r.sanctionsFlag == Some(true) then Some(OfacList) else None
  {
    if countryCode in SanctionedCountries || Contains(name, "Sanctioned") then
      Compliance(Some(true), Some(OfacList))
    else
      Compliance(Some(false), None)
  }

  /** The scenario names the unit tests use. */
  lemma ScenarioNames()
    ensures Troubled("Risky Corp")
    ensures StartsWith("999123456", HighRiskPrefix) && !StartsWith("123456789", HighRiskPrefix)
  {
    assert OccursAt("Risky Corp", "Risky", 0);
    assert "999123456"[..3] == HighRiskPrefix;
    assert "123456789"[0] != HighRiskPrefix[0];
  }
}
