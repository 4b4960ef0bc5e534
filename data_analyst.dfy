/**
 * The data analyst's own logic: the two ordered sections of its prompt, and the
 * defaults it reads the model's analysis with.
 */
module DataAnalyst {
  import opened Wrappers
  import opened JsonValue
  import Text
  import AgentContext

  const MarketPlaceholder := "(No market data reports available yet.)"
  const RiskPlaceholder := "(No risk constraints issued yet - use your own judgment.)"

  /** `_build_analysis_context`, as the parts it joins by newlines. */
  function AnalysisParts(collector: seq<string>, risk: seq<string>): (parts: seq<string>)
    ensures |parts| == 4
  {
    [ "## Recent Market Data\n", AgentContext.ReportBlock(collector, MarketPlaceholder),
      "\n\n## Risk Constraints\n", AgentContext.ReportBlock(risk, RiskPlaceholder) ]
  }

  function AnalysisContext(collector: seq<string>, risk: seq<string>): string
  {
    Text.Join(AnalysisParts(collector, risk), "\n")
  }

  /** `_build_analysis_context`, appending to `parts` one at a time. */
  method BuildAnalysisContext(collector: seq<string>, risk: seq<string>) returns (context: string)
    ensures context == AnalysisContext(collector, risk)
  {
    var parts: seq<string> := [];
    parts := parts + ["## Recent Market Data\n"];
    parts := AgentContext.AppendBlock(parts, collector, MarketPlaceholder);
    parts := parts + ["\n\n## Risk Constraints\n"];
    parts := AgentContext.AppendBlock(parts, risk, RiskPlaceholder);
    assert parts == AnalysisParts(collector, risk);
    context := Text.Join(parts, "\n");
  }

  /** The market data comes before the risk constraints, each its reports or its placeholder. */
  lemma AnalysisSections(collector: seq<string>, risk: seq<string>)
    ensures var sections := [
        AgentContext.Section("## Recent Market Data\n", AgentContext.ReportBlock(collector, MarketPlaceholder)),
        AgentContext.Section("\n\n## Risk Constraints\n", AgentContext.ReportBlock(risk, RiskPlaceholder))];
      && AnalysisContext(collector, risk) == Text.Join(sections, "\n")
      && exists offsets :: Text.InOrder(AnalysisContext(collector, risk), offsets, sections)
  {
    AgentContext.JoinedSections(AnalysisParts(collector, risk), [
        AgentContext.Section("## Recent Market Data\n", AgentContext.ReportBlock(collector, MarketPlaceholder)),
        AgentContext.Section("\n\n## Risk Constraints\n", AgentContext.ReportBlock(risk, RiskPlaceholder))]);
  }

  /** With no collector reports the market section holds only the placeholder. */
  lemma NoCollectorReports(risk: seq<string>)
    ensures Text.OccursAt(AnalysisContext([], risk), 0, "## Recent Market Data\n\n" + MarketPlaceholder)
  {
    var parts := AnalysisParts([], risk);
    var head := "## Recent Market Data\n\n" + MarketPlaceholder;
    var rest := Text.Join(parts[2..], "\n");
    assert parts[1..][1..] == parts[2..];
    assert Text.Join(parts[1..], "\n") == MarketPlaceholder + "\n" + rest;
    assert AnalysisContext([], risk) == head + ("\n" + rest);
    assert Text.OccursAt(head, 0, head);
    Text.OccursInConcat(head, "\n" + rest, 0, head);
  }

  /** The fields `run_cycle` reads from the analysis, and its report summary. */
  datatype Extracted = Extracted(signals: Json, outlook: Json, reasoning: Json, summary: string)

  /**
   * `signals` defaults to `[]`, `market_outlook` to "N/A" and `reasoning` to "". `Err`
   * is the `TypeError` of `len(signals)` on a value that has no length.
   */
  function Extract(analysis: map<string, Json>): (r: Result<Extracted, string>)
    ensures r.Err? <==> ("signals" in analysis
      && (analysis["signals"].JNull? || analysis["signals"].JBool? || analysis["signals"].JInt?))
    ensures r.Ok? && "signals" !in analysis ==> r.value.signals == JArr([])
    ensures r.Ok? && "signals" in analysis ==> r.value.signals == analysis["signals"]
    ensures r.Ok? && "market_outlook" !in analysis ==> r.value.outlook == JStr("N/A")
    ensures r.Ok? && "market_outlook" in analysis ==> r.value.outlook == analysis["market_outlook"]
    ensures r.Ok? && "reasoning" !in analysis ==> r.value.reasoning == JStr("")
    ensures r.Ok? && "reasoning" in analysis ==> r.value.reasoning == analysis["reasoning"]
  {
    var signals := GetOr(analysis, "signals", JArr([]));
    var outlook := GetOr(analysis, "market_outlook", JStr("N/A"));
    var reasoning := GetOr(analysis, "reasoning", JStr(""));
    match PyLen(signals)
    case None => Err("TypeError: object has no len()")
    case Some(count) =>
      Ok(Extracted(signals, outlook, reasoning,
                   "Generated " + Text.NatToString(count) + " signal(s). Outlook: " + Display(outlook)))
  }

  /** The summary line before the outlook, for `n` signals. */
  function CountLine(n: nat): string
  {
    "Generated " + Text.NatToString(n) + " signal(s). Outlook: "
  }

  /**
   * For a list of signals (or none at all), the summary states how many there are, as a
   * number that reads back as the list's length, followed by the outlook.
   */
  lemma SummaryCountsSignals(analysis: map<string, Json>, items: seq<Json>)
    requires if "signals" in analysis then analysis["signals"] == JArr(items) else items == []
    ensures Extract(analysis).Ok?
    ensures var summary := Extract(analysis).value.summary;
      && Text.OccursAt(summary, 0, CountLine(|items|))
      && summary[|CountLine(|items|)|..] == Display(Extract(analysis).value.outlook)
      && Text.ParseInt(Text.NatToString(|items|)) == Some(|items|)
  {
    Text.ParseIntOfIntToString(|items|);
    var summary := Extract(analysis).value.summary;
    assert summary == CountLine(|items|) + Display(Extract(analysis).value.outlook);
  }

  /** An empty analysis reads as no signals, outlook "N/A" and no reasoning. */
  lemma EmptyAnalysisDefaults()
    ensures Extract(map[]) == Ok(Extracted(JArr([]), JStr("N/A"), JStr(""), "Generated " + "0" + " signal(s). Outlook: " + "N/A"))
  {
    assert PyLen(JArr([])) == Some(0);
    assert Text.NatToString(0) == "0";
    assert Display(JStr("N/A")) == "N/A";
  }
}
