/**
 * The trade executor's own logic: the holdings summary it shows the model, the
 * dispatch of one order decided by the model to the broker, and the ordered
 * sections of its prompt.
 *
 * The broker's answer to a placed order is an input (`BrokerReply`): a response, or
 * the text of the exception the call raised.
 */
module TradeExecutor {
  import opened Wrappers
  import opened JsonValue
  import Text
  import Models
  import AgentContext

  const NoPositions := "(No current positions)"

  /** Zero-quantity rows are the only ones skipped; negative quantities are listed. */
  function NonZero(item: Models.BalanceItem): bool { AgentContext.Qty(item) != 0 }

  function Header(b: Models.AccountBalance): seq<string>
  {
    ["Total evaluation: " + b.total_evlu_amt + " KRW", "Total P&L: " + b.total_evlu_pfls_amt + " KRW"]
  }

  /** `format_positions`; `None` when `int(hldg_qty)` raises for some holding. */
  function Positions(b: Models.AccountBalance): (r: Option<string>)
    ensures r.Some? <==> AgentContext.QuantitiesParse(b.items)
  {
    if !AgentContext.QuantitiesParse(b.items) then None
    else
      var held := AgentContext.Kept(b.items, NonZero);
      if held == [] then Some(NoPositions)
      else Some(Text.Join(Header(b) + AgentContext.Lines(held), "\n"))
  }

  /** `format_positions`: the holding lines are collected by a loop, then the two totals are inserted in front. */
  method FormatPositions(b: Models.AccountBalance) returns (r: Option<string>)
    ensures r == Positions(b)
  {
    if b.items == [] {
      return Some(NoPositions);
    }
    var collected := CollectLines(b.items);
    if collected.None? {
      return None;
    }
    var lines := collected.value;
    if lines == [] {
      return Some(NoPositions);
    }
    ghost var held := AgentContext.Kept(b.items, NonZero);
    ghost var body := lines;
    lines := [Header(b)[0]] + lines;
    InsertSecond(Header(b)[0], Header(b)[1], body);
    lines := lines[..1] + [Header(b)[1]] + lines[1..];
    assert lines == Header(b) + body;
    return Some(Text.Join(lines, "\n"));
  }

  /** `lines.insert(1, second)` on a list that starts with `first`. */
  lemma InsertSecond(first: string, second: string, rest: seq<string>)
    ensures ([first] + rest)[..1] + [second] + ([first] + rest)[1..] == [first, second] + rest
  {
    assert ([first] + rest)[..1] == [first] && ([first] + rest)[1..] == rest;
  }

  /** The loop of `format_positions`: one line per holding whose quantity is not zero. */
  method CollectLines(items: seq<Models.BalanceItem>) returns (r: Option<seq<string>>)
    ensures r.Some? <==> AgentContext.QuantitiesParse(items)
    ensures r.Some? ==> r.value == AgentContext.Lines(AgentContext.Kept(items, NonZero))
  {
    var lines: seq<string> := [];
    for i := 0 to |items|
      invariant AgentContext.QuantitiesParse(items[..i])
      invariant lines == AgentContext.Lines(AgentContext.Kept(items[..i], NonZero))
    {
      var item := items[i];
      var q := Text.ParseInt(item.hldg_qty);
      if q.None? {
        if AgentContext.QuantitiesParse(items) {
          AgentContext.QuantityParsesAt(items, i);
        }
        return None;
      }
      assert items[..i + 1][..i] == items[..i];
      ghost var kept := AgentContext.Kept(items[..i], NonZero);
      if q.value != 0 {
        assert (kept + [item])[..|kept|] == kept;
        lines := lines + [AgentContext.HoldingLine(item)];
      } else {
        assert AgentContext.Kept(items[..i + 1], NonZero) == kept;
      }
    }
    assert items[..|items|] == items;
    return Some(lines);
  }

  /** The placeholder is the answer exactly when every quantity converts and is zero. */
  lemma NoPositionsExactly(b: Models.AccountBalance)
    ensures Positions(b) == Some(NoPositions) <==>
      (AgentContext.QuantitiesParse(b.items) && forall i :: 0 <= i < |b.items| ==> AgentContext.Qty(b.items[i]) == 0)
  {
    if AgentContext.QuantitiesParse(b.items) {
      AgentContext.NothingKept(b.items, NonZero);
      var held := AgentContext.Kept(b.items, NonZero);
      if held != [] {
        var parts := Header(b) + AgentContext.Lines(held);
        Text.JoinPieceAt(parts, "\n", 0);
        assert Text.Join(parts, "\n")[0] == 'T';
      }
    }
  }

  /** Every holding with a non-zero quantity, negative ones included, has its line in the summary. */
  lemma HeldLineShown(b: Models.AccountBalance, x: Models.BalanceItem)
    requires AgentContext.QuantitiesParse(b.items)
    requires x in b.items && AgentContext.Qty(x) != 0
    ensures Positions(b).Some?
    ensures exists k :: Text.OccursAt(Positions(b).value, k, AgentContext.HoldingLine(x))
  {
    var held := AgentContext.Kept(b.items, NonZero);
    AgentContext.KeptMembers(b.items, NonZero, x);
    assert x in held;
    var j :| 0 <= j < |held| && held[j] == x;
    var lines := AgentContext.Lines(held);
    AgentContext.LineAt(held, j);
    var parts := Header(b) + lines;
    Text.JoinPieceAt(parts, "\n", j + 2);
    assert Positions(b).value == Text.Join(parts, "\n");
  }

  // ---------------------------------------------------------------------------
  // one order
  // ---------------------------------------------------------------------------

  datatype Side = BuySide | SellSide

  /** The broker call an order places. */
  datatype OrderCall = OrderCall(side: Side, stockCode: Json, qty: int, price: int, orderType: Json)

  /** What the broker call did: answered, or raised an exception with this text. */
  datatype BrokerReply = Responded(response: Models.OrderResponse) | CallFailed(message: string)

  /** The dict `_execute_single_order` returns. */
  datatype OrderResult = OrderResult(order: map<string, Json>, result: string, error: Option<string>,
                                     response: Option<Models.OrderResponse>)

  /** The `trade_executed` broadcast. */
  datatype TradeEvent = TradeEvent(order: map<string, Json>, status: string, responseCode: string)

  datatype Execution = Execution(call: Option<OrderCall>, outcome: OrderResult, event: Option<TradeEvent>)

  /** The order fields that are read before the broker is called; a failing conversion raises out of the method. */
  predicate FieldsConvert(order: map<string, Json>)
  {
    GetOr(order, "action", JStr("")).JStr?
    && PyInt(GetOr(order, "qty", JInt(0))).Some?
    && PyInt(GetOr(order, "price", JInt(0))).Some?
  }

  function Action(order: map<string, Json>): string
    requires FieldsConvert(order)
  {
    Text.Lower(GetOr(order, "action", JStr("")).s)
  }

  /**
   * `_execute_single_order`: "buy" and "sell" (in any case) place an order, anything
   * else is skipped; a raising broker call is "failed", any response is "success".
   * `Err` is an exception raised while reading the fields, before the `try`.
   */
  function ExecuteSingleOrder(order: map<string, Json>, reply: BrokerReply, hasManager: bool): (r: Result<Execution, string>)
    ensures r.Ok? <==> FieldsConvert(order)
    ensures r.Ok? ==> r.value.outcome.order == order
    ensures r.Ok? ==> (r.value.call.Some? <==> Action(order) == "buy" || Action(order) == "sell")
    ensures r.Ok? && r.value.call.None? ==>
      r.value.outcome.result == "skipped" && r.value.outcome.error == Some("Unknown action: " + Action(order))
      && r.value.event.None?
    ensures r.Ok? && r.value.call.Some? ==>
      && r.value.call.value.side == (if Action(order) == "buy" then BuySide else SellSide)
      && r.value.call.value.stockCode == GetOr(order, "stock_code", JStr(""))
      && r.value.call.value.qty == PyInt(GetOr(order, "qty", JInt(0))).value
      && r.value.call.value.price == PyInt(GetOr(order, "price", JInt(0))).value
      && r.value.call.value.orderType == GetOr(order, "order_type", JStr("01"))
      && (r.value.outcome.result == "success" <==> reply.Responded?)
      && (r.value.outcome.result == "failed" <==> reply.CallFailed?)
      && (reply.CallFailed? ==> r.value.outcome.error == Some(reply.message))
      && (r.value.event.Some? <==> hasManager && reply.Responded?)
  {
    var action := GetOr(order, "action", JStr(""));
    if !action.JStr? then Err("AttributeError: 'lower' of a non-string action")
    else
      var qty := PyInt(GetOr(order, "qty", JInt(0)));
      var price := PyInt(GetOr(order, "price", JInt(0)));
      if qty.None? || price.None? then Err("ValueError: invalid literal for int()")
      else
        var lowered := Text.Lower(action.s);
        if lowered != "buy" && lowered != "sell" then
          Ok(Execution(None, OrderResult(order, "skipped", Some("Unknown action: " + lowered), None), None))
        else
          var call := OrderCall(if lowered == "buy" then BuySide else SellSide, GetOr(order, "stock_code", JStr("")),
                                qty.value, price.value, GetOr(order, "order_type", JStr("01")));
          match reply
          case Responded(resp) =>
            Ok(Execution(Some(call), OrderResult(order, "success", None, Some(resp)),
                         if hasManager then Some(TradeEvent(order, "filled", resp.rt_cd)) else None))
          case CallFailed(message) =>
            Ok(Execution(Some(call), OrderResult(order, "failed", Some(message), None), None))
  }

  /** An order naming only its action is placed at market with every other field at its default. */
  lemma MissingFieldsDefault(reply: BrokerReply, hasManager: bool)
    ensures var r := ExecuteSingleOrder(map["action" := JStr("SELL")], reply, hasManager);
      r.Ok? && r.value.call == Some(OrderCall(SellSide, JStr(""), 0, 0, JStr("01")))
  {
    var order := map["action" := JStr("SELL")];
    assert Text.Lower("SELL") == "sell";
    assert Action(order) == "sell";
  }

  /** The action is compared after lower-casing: "Buy" places a buy, " buy" is skipped. */
  lemma ActionCase(reply: BrokerReply)
    ensures var r := ExecuteSingleOrder(map["action" := JStr("Buy")], reply, false);
      r.Ok? && r.value.call.Some? && r.value.call.value.side == BuySide
    ensures var r := ExecuteSingleOrder(map["action" := JStr(" buy")], reply, false);
      r.Ok? && r.value.call.None? && r.value.outcome.result == "skipped"
  {
    assert Text.Lower("Buy") == "buy";
    assert Text.Lower(" buy") == " buy";
  }

  /** A response the broker rejected (`rt_cd` other than "0") still counts as "success". */
  lemma RejectedResponseCountsAsSuccess(order: map<string, Json>, resp: Models.OrderResponse)
    requires FieldsConvert(order) && Action(order) == "buy"
    requires resp.rt_cd != "0"
    ensures ExecuteSingleOrder(order, Responded(resp), true).value.outcome.result == "success"
    ensures ExecuteSingleOrder(order, Responded(resp), true).value.event == Some(TradeEvent(order, "filled", resp.rt_cd))
  {
  }

  // ---------------------------------------------------------------------------
  // the prompt
  // ---------------------------------------------------------------------------

  const AnalystPlaceholder := "(No analyst reports available yet.)"
  const RiskPlaceholder := "(No risk constraints issued yet - use your own judgment.)"
  const HistoryPlaceholder := "(No previous trades.)"

  function CashLine(cash: int): string
  {
    "\nAvailable Cash: " + Text.WithThousands(cash) + " KRW"
  }

  /** `_build_execution_context`, as the parts it joins by newlines. */
  function ExecutionParts(analyst: seq<string>, risk: seq<string>, own: seq<string>, positions: string, cash: int): (parts: seq<string>)
    ensures |parts| == 8
  {
    [ "## Analysis Signals\n", AgentContext.ReportBlock(analyst, AnalystPlaceholder),
      "\n\n## Current Positions\n" + positions, CashLine(cash),
      "\n\n## Risk Constraints\n", AgentContext.ReportBlock(risk, RiskPlaceholder),
      "\n\n## Recent Trade History\n", AgentContext.ReportBlock(own, HistoryPlaceholder) ]
  }

  function ExecutionContext(analyst: seq<string>, risk: seq<string>, own: seq<string>, positions: string, cash: int): string
  {
    Text.Join(ExecutionParts(analyst, risk, own, positions, cash), "\n")
  }

  /** `_build_execution_context`, appending to `parts` one at a time. */
  method BuildExecutionContext(analyst: seq<string>, risk: seq<string>, own: seq<string>, positions: string, cash: int)
    returns (context: string)
    ensures context == ExecutionContext(analyst, risk, own, positions, cash)
  {
    var parts: seq<string> := [];
    parts := parts + ["## Analysis Signals\n"];
    parts := AgentContext.AppendBlock(parts, analyst, AnalystPlaceholder);
    parts := parts + ["\n\n## Current Positions\n" + positions];
    parts := parts + [CashLine(cash)];
    parts := parts + ["\n\n## Risk Constraints\n"];
    parts := AgentContext.AppendBlock(parts, risk, RiskPlaceholder);
    parts := parts + ["\n\n## Recent Trade History\n"];
    parts := AgentContext.AppendBlock(parts, own, HistoryPlaceholder);
    assert parts == ExecutionParts(analyst, risk, own, positions, cash);
    context := Text.Join(parts, "\n");
  }

  /**
   * The prompt is four sections in a fixed order, each a heading followed by its
   * reports or its placeholder: signals, positions with the cash line, risk
   * constraints, trade history.
   */
  lemma ExecutionSections(analyst: seq<string>, risk: seq<string>, own: seq<string>, positions: string, cash: int)
    ensures var sections := [
        AgentContext.Section("## Analysis Signals\n", AgentContext.ReportBlock(analyst, AnalystPlaceholder)),
        AgentContext.Section("\n\n## Current Positions\n" + positions, CashLine(cash)),
        AgentContext.Section("\n\n## Risk Constraints\n", AgentContext.ReportBlock(risk, RiskPlaceholder)),
        AgentContext.Section("\n\n## Recent Trade History\n", AgentContext.ReportBlock(own, HistoryPlaceholder))];
      && ExecutionContext(analyst, risk, own, positions, cash) == Text.Join(sections, "\n")
      && exists offsets :: Text.InOrder(ExecutionContext(analyst, risk, own, positions, cash), offsets, sections)
  {
    var parts := ExecutionParts(analyst, risk, own, positions, cash);
    AgentContext.JoinedSections(parts, [
        AgentContext.Section("## Analysis Signals\n", AgentContext.ReportBlock(analyst, AnalystPlaceholder)),
        AgentContext.Section("\n\n## Current Positions\n" + positions, CashLine(cash)),
        AgentContext.Section("\n\n## Risk Constraints\n", AgentContext.ReportBlock(risk, RiskPlaceholder)),
        AgentContext.Section("\n\n## Recent Trade History\n", AgentContext.ReportBlock(own, HistoryPlaceholder))]);
  }
}
