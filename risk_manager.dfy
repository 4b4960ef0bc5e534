/**
 * The risk manager's own logic: the portfolio summary it shows the model, the five
 * ordered sections of its prompt, and what it does with the model's assessment (the
 * `risk_alert` broadcast and the report summary).
 */
module RiskManager {
  import opened Wrappers
  import opened JsonValue
  import Text
  import Models
  import AgentContext

  const NoPositions := "(No current positions)"

  /** Only positive quantities are active; zero and negative ones are left out. */
  function Positive(item: Models.BalanceItem): bool { AgentContext.Qty(item) > 0 }

  /** The five lines every summary starts with. */
  function RiskHeader(b: Models.AccountBalance, cash: int): seq<string>
  {
    ["Total Evaluation: " + b.total_evlu_amt + " KRW", "Total P&L: " + b.total_evlu_pfls_amt + " KRW",
     "Available Cash: " + Text.WithThousands(cash) + " KRW", "", "### Holdings"]
  }

  /** The lines after the header: one per active holding, or the placeholder. */
  function HoldingsBody(b: Models.AccountBalance): seq<string>
  {
    var active := AgentContext.Kept(b.items, Positive);
    if active == [] then [NoPositions] else AgentContext.Lines(active)
  }

  /** `format_positions_for_risk`; `None` when `int(hldg_qty)` raises for some holding. */
  function RiskPositions(b: Models.AccountBalance, cash: int): (r: Option<string>)
    ensures r.Some? <==> AgentContext.QuantitiesParse(b.items)
  {
    if !AgentContext.QuantitiesParse(b.items) then None
    else Some(Text.Join(RiskHeader(b, cash) + HoldingsBody(b), "\n"))
  }

  /** `format_positions_for_risk`: the header list, then one appended line per active holding. */
  method FormatPositionsForRisk(b: Models.AccountBalance, cash: int) returns (r: Option<string>)
    ensures r == RiskPositions(b, cash)
  {
    var lines := RiskHeader(b, cash);
    if !AgentContext.QuantitiesParse(b.items) {
      return None;
    }
    var active := AgentContext.Kept(b.items, Positive);
    if active == [] {
      lines := lines + [NoPositions];
    } else {
      lines := AppendLines(lines, active);
    }
    return Some(Text.Join(lines, "\n"));
  }

  /** The loop of `format_positions_for_risk` over the active holdings: one line each, in order. */
  method AppendLines(header: seq<string>, active: seq<Models.BalanceItem>) returns (lines: seq<string>)
    ensures lines == header + AgentContext.Lines(active)
  {
    lines := header;
    for i := 0 to |active|
      invariant lines == header + AgentContext.Lines(active[..i])
    {
      assert active[..i + 1][..i] == active[..i];
      lines := lines + [AgentContext.HoldingLine(active[i])];
    }
    assert active[..|active|] == active;
  }

  /**
   * The summary is the five header lines, then exactly the holdings with a positive
   * quantity, in their original order, or the placeholder when there are none.
   */
  lemma RiskSummaryShape(b: Models.AccountBalance, cash: int)
    requires AgentContext.QuantitiesParse(b.items)
    ensures RiskPositions(b, cash).value ==
      Text.Join(RiskHeader(b, cash), "\n") + "\n" + Text.Join(HoldingsBody(b), "\n")
    ensures HoldingsBody(b) == [NoPositions] <==> forall i :: 0 <= i < |b.items| ==> AgentContext.Qty(b.items[i]) <= 0
    ensures forall x :: x in AgentContext.Kept(b.items, Positive) <==> x in b.items && AgentContext.Qty(x) > 0
  {
    Text.JoinAppend(RiskHeader(b, cash), HoldingsBody(b), "\n");
    PlaceholderExactly(b);
    ActiveExactly(b);
  }

  lemma PlaceholderExactly(b: Models.AccountBalance)
    ensures HoldingsBody(b) == [NoPositions] <==> forall i :: 0 <= i < |b.items| ==> AgentContext.Qty(b.items[i]) <= 0
  {
    var active := AgentContext.Kept(b.items, Positive);
    AgentContext.NothingKept(b.items, Positive);
    if active != [] {
      AgentContext.LineAt(active, 0);
      assert AgentContext.Lines(active)[0][0] == '-' != NoPositions[0];
    }
  }

  lemma ActiveExactly(b: Models.AccountBalance)
    ensures forall x :: x in AgentContext.Kept(b.items, Positive) <==> x in b.items && AgentContext.Qty(x) > 0
  {
    forall x
      ensures x in AgentContext.Kept(b.items, Positive) <==> x in b.items && AgentContext.Qty(x) > 0
    {
      AgentContext.KeptMembers(b.items, Positive, x);
    }
  }

  // ---------------------------------------------------------------------------
  // the prompt
  // ---------------------------------------------------------------------------

  const MarketPlaceholder := "(No market data reports available yet.)"
  const AnalystPlaceholder := "(No analyst reports available yet.)"
  const TradesPlaceholder := "(No trades executed yet.)"
  const FirstAssessment := "(First risk assessment cycle.)"

  /** `build_risk_context`, as the parts it joins by newlines. */
  function RiskParts(positions: string, collector: seq<string>, analyst: seq<string>, executor: seq<string>,
                     own: seq<string>): (parts: seq<string>)
    ensures |parts| == 10
  {
    [ "## Portfolio State\n", positions,
      "\n\n## Market Data (from Data Collector)\n", AgentContext.ReportBlock(collector, MarketPlaceholder),
      "\n\n## Analyst Signals\n", AgentContext.ReportBlock(analyst, AnalystPlaceholder),
      "\n\n## Recent Trades\n", AgentContext.ReportBlock(executor, TradesPlaceholder),
      "\n\n## Previous Risk Assessments\n", AgentContext.ReportBlock(own, FirstAssessment) ]
  }

  /** `build_risk_context`; `None` when the portfolio summary raises. */
  function RiskContext(b: Models.AccountBalance, cash: int, collector: seq<string>, analyst: seq<string>,
                       executor: seq<string>, own: seq<string>): (r: Option<string>)
    ensures r.Some? <==> AgentContext.QuantitiesParse(b.items)
  {
    match RiskPositions(b, cash)
    case None => None
    case Some(positions) => Some(Text.Join(RiskParts(positions, collector, analyst, executor, own), "\n"))
  }

  /** `build_risk_context`, appending to `parts` one at a time. */
  method BuildRiskContext(b: Models.AccountBalance, cash: int, collector: seq<string>, analyst: seq<string>,
                          executor: seq<string>, own: seq<string>) returns (r: Option<string>)
    ensures r == RiskContext(b, cash, collector, analyst, executor, own)
  {
    var positions := FormatPositionsForRisk(b, cash);
    if positions.None? {
      return None;
    }
    var context := JoinRiskParts(positions.value, collector, analyst, executor, own);
    return Some(context);
  }

  /** The appends of `build_risk_context` once the portfolio summary is made. */
  method JoinRiskParts(positions: string, collector: seq<string>, analyst: seq<string>, executor: seq<string>,
                       own: seq<string>) returns (context: string)
    ensures context == Text.Join(RiskParts(positions, collector, analyst, executor, own), "\n")
  {
    var parts: seq<string> := [];
    parts := parts + ["## Portfolio State\n"];
    parts := parts + [positions];
    parts := parts + ["\n\n## Market Data (from Data Collector)\n"];
    parts := AgentContext.AppendBlock(parts, collector, MarketPlaceholder);
    parts := parts + ["\n\n## Analyst Signals\n"];
    parts := AgentContext.AppendBlock(parts, analyst, AnalystPlaceholder);
    parts := parts + ["\n\n## Recent Trades\n"];
    parts := AgentContext.AppendBlock(parts, executor, TradesPlaceholder);
    parts := parts + ["\n\n## Previous Risk Assessments\n"];
    parts := AgentContext.AppendBlock(parts, own, FirstAssessment);
    assert parts == RiskParts(positions, collector, analyst, executor, own);
    context := Text.Join(parts, "\n");
  }

  /**
   * The prompt is five sections in a fixed order: portfolio state, market data, analyst
   * signals, recent trades, previous assessments; each list of reports is its block or
   * its placeholder.
   */
  lemma RiskSections(positions: string, collector: seq<string>, analyst: seq<string>, executor: seq<string>,
                     own: seq<string>)
    ensures var sections := [
        AgentContext.Section("## Portfolio State\n", positions),
        AgentContext.Section("\n\n## Market Data (from Data Collector)\n", AgentContext.ReportBlock(collector, MarketPlaceholder)),
        AgentContext.Section("\n\n## Analyst Signals\n", AgentContext.ReportBlock(analyst, AnalystPlaceholder)),
        AgentContext.Section("\n\n## Recent Trades\n", AgentContext.ReportBlock(executor, TradesPlaceholder)),
        AgentContext.Section("\n\n## Previous Risk Assessments\n", AgentContext.ReportBlock(own, FirstAssessment))];
      && Text.Join(RiskParts(positions, collector, analyst, executor, own), "\n") == Text.Join(sections, "\n")
      && exists offsets :: Text.InOrder(Text.Join(RiskParts(positions, collector, analyst, executor, own), "\n"), offsets, sections)
  {
    AgentContext.JoinedSections(RiskParts(positions, collector, analyst, executor, own), [
        AgentContext.Section("## Portfolio State\n", positions),
        AgentContext.Section("\n\n## Market Data (from Data Collector)\n", AgentContext.ReportBlock(collector, MarketPlaceholder)),
        AgentContext.Section("\n\n## Analyst Signals\n", AgentContext.ReportBlock(analyst, AnalystPlaceholder)),
        AgentContext.Section("\n\n## Recent Trades\n", AgentContext.ReportBlock(executor, TradesPlaceholder)),
        AgentContext.Section("\n\n## Previous Risk Assessments\n", AgentContext.ReportBlock(own, FirstAssessment))]);
  }

  // ---------------------------------------------------------------------------
  // the assessment
  // ---------------------------------------------------------------------------

  /** The `risk_alert` broadcast. */
  datatype RiskAlert = RiskAlert(riskLevel: Json, warnings: Json)

  datatype Assessed = Assessed(alert: Option<RiskAlert>, summary: string)

  /**
   * What `run_cycle` makes of the model's assessment: the alert goes out only when the
   * warnings are non-empty and a manager is attached. `Err` is the `TypeError` of
   * `len(warnings)` on a value that has no length.
   */
  function Assess(assessment: map<string, Json>, hasManager: bool): (r: Result<Assessed, string>)
    ensures r.Ok? <==> PyLen(GetOr(assessment, "warnings", JArr([]))).Some?
    ensures r.Ok? ==> (r.value.alert.Some? <==> Truthy(GetOr(assessment, "warnings", JArr([]))) && hasManager)
    ensures r.Ok? && r.value.alert.Some? ==>
      r.value.alert.value == RiskAlert(GetOr(assessment, "risk_level", JStr("N/A")), assessment["warnings"])
  {
    var level := GetOr(assessment, "risk_level", JStr("N/A"));
    var warnings := GetOr(assessment, "warnings", JArr([]));
    match PyLen(warnings)
    case None => Err("TypeError: object has no len()")
    case Some(count) =>
      var alert := if Truthy(warnings) && hasManager then Some(RiskAlert(level, warnings)) else None;
      Ok(Assessed(alert, "Risk Level: " + Display(level) + ". Warnings: " + Text.NatToString(count)))
  }

  /** The summary line before the warning count, for a risk level. */
  function LevelLine(level: Json): string
  {
    "Risk Level: " + Display(level) + ". Warnings: "
  }

  /**
   * For a list of warnings (or none at all), the summary names the risk level and ends with
   * the number of warnings, which reads back as the list's length; the alert goes out iff
   * the list is non-empty and a manager is attached.
   */
  lemma SummaryCountsWarnings(assessment: map<string, Json>, items: seq<Json>, hasManager: bool)
    requires if "warnings" in assessment then assessment["warnings"] == JArr(items) else items == []
    ensures Assess(assessment, hasManager).Ok?
    ensures var summary := Assess(assessment, hasManager).value.summary;
      var head := LevelLine(GetOr(assessment, "risk_level", JStr("N/A")));
      && Text.OccursAt(summary, 0, head)
      && Text.ParseInt(summary[|head|..]) == Some(|items|)
    ensures Assess(assessment, hasManager).value.alert.Some? <==> items != [] && hasManager
  {
    Text.ParseIntOfIntToString(|items|);
    var head := LevelLine(GetOr(assessment, "risk_level", JStr("N/A")));
    var summary := Assess(assessment, hasManager).value.summary;
    assert summary == head + Text.NatToString(|items|);
    assert summary[|head|..] == Text.NatToString(|items|);
  }

  /** An assessment without warnings raises no alert, even with a manager attached. */
  lemma NoWarningsNoAlert(level: string)
    ensures Assess(map["risk_level" := JStr(level)], true) == Ok(Assessed(None, "Risk Level: " + level + ". Warnings: 0"))
    ensures Assess(map["risk_level" := JStr(level), "warnings" := JArr([])], true).value.alert.None?
  {
    var m := map["risk_level" := JStr(level)];
    assert GetOr(m, "warnings", JArr([])) == JArr([]);
    assert GetOr(m, "risk_level", JStr("N/A")) == JStr(level);
    assert PyLen(JArr([])) == Some(0);
    assert Text.NatToString(0) == "0";
    assert Display(JStr(level)) == level;
    assert Assess(m, true).Ok?;
    assert Assess(m, true).value.alert.None?;
    assert Assess(m, true).value.summary == "Risk Level: " + level + ". Warnings: 0";
  }

  /** Without a manager nothing is broadcast, whatever the warnings. */
  lemma NoManagerNoAlert(assessment: map<string, Json>)
    requires PyLen(GetOr(assessment, "warnings", JArr([]))).Some?
    ensures Assess(assessment, false).value.alert.None?
  {
  }
}
