/**
 * The HTTP API's own logic: the watchlist handlers that edit the shared configuration
 * in place, the trade history read back from the executor's reports (report file name
 * to timestamp, order result to status, newest first, at most `limit`), and the report
 * listings.
 *
 * The configuration is the `AppConfig.Config` object (`null` before the server is
 * wired up); the report directories are those of a `Reports.ReportManager`. What the
 * `## Data` section of a report decodes to is an input (`parse`); so is whether a
 * websocket client exists. The file the handlers save and the subscription they start
 * are outputs.
 */
module Routes {
  import opened Wrappers
  import opened JsonValue
  import Text
  import Clock
  import Sorting
  import Reports
  import AppConfig
  import Lists

  /** An `HTTPException`: its status code and detail. */
  datatype HttpError = HttpError(status: int, detail: string)

  const NoConfig := HttpError(503, "Config not available")

  /** `re.fullmatch(r"\d{6}", code)`, with ASCII digits. */
  predicate IsStockCode(code: string)
  {
    |code| == 6 && Text.AllDigits(code)
  }

  predicate Distinct(w: seq<string>)
  {
    forall i, j :: 0 <= i < j < |w| ==> w[i] != w[j]
  }

  // ---------------------------------------------------------------------------
  // the watchlist handlers
  // ---------------------------------------------------------------------------

  /** `add_to_watchlist` once the configuration exists: the new list, or the 400 or 409. */
  function AddOutcome(watchlist: seq<string>, raw: string): (r: Result<seq<string>, HttpError>)
    ensures r.Ok? <==> IsStockCode(Text.Strip(raw)) && Text.Strip(raw) !in watchlist
    ensures r.Ok? ==> r.value == watchlist + [Text.Strip(raw)]
    ensures r.Err? ==> r.error.status == (if IsStockCode(Text.Strip(raw)) then 409 else 400)
  {
    var code := Text.Strip(raw);
    if !IsStockCode(code) then Err(HttpError(400, "Stock code must be exactly 6 digits"))
    else if code in watchlist then Err(HttpError(409, code + " is already in the watchlist"))
    else Ok(watchlist + [code])
  }

  /** `remove_from_watchlist` once the configuration exists: the new list, or the 404. */
  function RemoveOutcome(watchlist: seq<string>, code: string): (r: Result<seq<string>, HttpError>)
    ensures r.Ok? <==> code in watchlist
    ensures r.Ok? ==> |r.value| == |watchlist| - 1 && multiset(r.value) == multiset(watchlist) - multiset{code}
    ensures r.Err? ==> r.error == HttpError(404, code + " is not in the watchlist")
  {
    if code !in watchlist then Err(HttpError(404, code + " is not in the watchlist"))
    else
      Lists.RemoveFirstCount(watchlist, code);
      Ok(Lists.RemoveFirst(watchlist, code))
  }

  /** `get_watchlist`. */
  function GetWatchlist(cfg: AppConfig.Config?): (r: Result<seq<string>, HttpError>)
    reads cfg
    ensures r.Err? <==> cfg == null
    ensures r.Err? ==> r.error.status == 503
  {
    if cfg == null then Err(NoConfig) else Ok(cfg.watchlist)
  }

  /**
   * `add_to_watchlist`: edits the configuration's list in place, saves the new list and,
   * when a websocket client exists, subscribes to the one new code.
   */
  method AddToWatchlist(cfg: AppConfig.Config?, raw: string, hasSocketClient: bool)
    returns (r: Result<seq<string>, HttpError>, saved: Option<seq<string>>, subscribed: Option<seq<string>>)
    modifies (if cfg == null then {} else {cfg})`watchlist
    ensures cfg == null ==> r == Err(NoConfig)
    ensures cfg != null ==> r == AddOutcome(old(cfg.watchlist), raw)
    ensures cfg != null ==> cfg.watchlist == if r.Ok? then r.value else old(cfg.watchlist)
    ensures saved == if r.Ok? then Some(r.value) else None
    ensures subscribed == if r.Ok? && hasSocketClient then Some([Text.Strip(raw)]) else None
  {
    saved, subscribed := None, None;
    if cfg == null {
      return Err(NoConfig), saved, subscribed;
    }
    var code := Text.Strip(raw);
    if !IsStockCode(code) {
      return Err(HttpError(400, "Stock code must be exactly 6 digits")), saved, subscribed;
    }
    if code in cfg.watchlist {
      return Err(HttpError(409, code + " is already in the watchlist")), saved, subscribed;
    }
    cfg.watchlist := cfg.watchlist + [code];
    saved := Some(cfg.watchlist);
    if hasSocketClient {
      subscribed := Some([code]);
    }
    r := Ok(cfg.watchlist);
  }

  /** `remove_from_watchlist`: deletes the first occurrence in place and saves the new list. */
  method RemoveFromWatchlist(cfg: AppConfig.Config?, code: string)
    returns (r: Result<seq<string>, HttpError>, saved: Option<seq<string>>)
    modifies (if cfg == null then {} else {cfg})`watchlist
    ensures cfg == null ==> r == Err(NoConfig)
    ensures cfg != null ==> r == RemoveOutcome(old(cfg.watchlist), code)
    ensures cfg != null ==> cfg.watchlist == if r.Ok? then r.value else old(cfg.watchlist)
    ensures saved == if r.Ok? then Some(r.value) else None
  {
    saved := None;
    if cfg == null {
      return Err(NoConfig), saved;
    }
    if code !in cfg.watchlist {
      return Err(HttpError(404, code + " is not in the watchlist")), saved;
    }
    cfg.watchlist := Lists.RemoveFirst(cfg.watchlist, code);
    saved := Some(cfg.watchlist);
    r := Ok(cfg.watchlist);
  }

  /** Adding a code and removing it again restores the list; adding it twice is a conflict. */
  lemma AddThenRemove(watchlist: seq<string>, raw: string)
    requires AddOutcome(watchlist, raw).Ok?
    ensures RemoveOutcome(AddOutcome(watchlist, raw).value, Text.Strip(raw)) == Ok(watchlist)
    ensures AddOutcome(AddOutcome(watchlist, raw).value, raw).Err?
    ensures AddOutcome(AddOutcome(watchlist, raw).value, raw).error.status == 409
  {
    var code := Text.Strip(raw);
    assert AddOutcome(watchlist, raw).value == watchlist + [code];
    Lists.RemoveAppended(watchlist, code);
  }

  /** A list without repeats keeps none through any sequence of adds and removes. */
  lemma EditsKeepDistinct(watchlist: seq<string>, raw: string, code: string)
    requires Distinct(watchlist)
    ensures AddOutcome(watchlist, raw).Ok? ==> Distinct(AddOutcome(watchlist, raw).value)
    ensures RemoveOutcome(watchlist, code).Ok? ==>
      Distinct(RemoveOutcome(watchlist, code).value) && code !in RemoveOutcome(watchlist, code).value
  {
    if AddOutcome(watchlist, raw).Ok? {
      assert AddOutcome(watchlist, raw).value == watchlist + [Text.Strip(raw)];
    }
    if code in watchlist {
      Lists.RemoveFromDistinct(watchlist, code);
    }
  }

  /** White space around a code is ignored: " 005930 " is added as "005930". */
  lemma AddStripsPadding(watchlist: seq<string>, code: string)
    requires IsStockCode(code) && code !in watchlist
    ensures AddOutcome(watchlist, " " + code + " ") == Ok(watchlist + [code])
  {
    var padded := " " + code + " ";
    assert padded[1..] == code + " ";
    assert Text.TrimStart(padded) == Text.TrimStart(code + " ");
    assert !Text.IsSpace(code[0]);
    assert Text.TrimStart(code + " ") == code + " ";
    assert (code + " ")[..|code|] == code;
    assert Text.TrimEnd(code + " ") == Text.TrimEnd(code);
    assert !Text.IsSpace(code[|code| - 1]);
    assert Text.Strip(padded) == code;
  }

  // ---------------------------------------------------------------------------
  // the trade history
  // ---------------------------------------------------------------------------

  /** `filepath.stem` of a file matched by `*.md`; the name ".md" has no suffix to drop. */
  function Stem(name: string): (stem: string)
    requires Reports.IsMarkdown(name)
  {
    if name == ".md" then name else name[..|name| - 3]
  }

  /** `date_T_time`: a stem that splits on '_' into two parts, with '-' in the time read as ':'. */
  function StemTimestamp(stem: string): (r: Option<string>)
    ensures r.Some? <==> |Text.Split(stem, '_')| == 2
    ensures r.Some? ==> r.value == Text.Split(stem, '_')[0] + "T" + Text.ReplaceChar(Text.Split(stem, '_')[1], '-', ':')
  {
    var parts := Text.Split(stem, '_');
    if |parts| == 2 then Some(parts[0] + "T" + Text.ReplaceChar(parts[1], '-', ':')) else None
  }

  /** A report written at `t` reads back as the `isoformat()` of `t`. */
  lemma ReportNameTimestamp(t: Clock.DateTime)
    requires Clock.Valid(t)
    ensures Reports.IsMarkdown(Reports.ReportName(t))
    ensures StemTimestamp(Stem(Reports.ReportName(t))) == Some(Clock.IsoSeconds(t))
  {
    var name := Reports.ReportName(t);
    var date, time := Clock.DatePart(t), Clock.TimePart(t, '-');
    Clock.StampParts(t, '_', '-');
    Clock.StampParts(t, 'T', ':');
    assert Stem(name) == date + ['_'] + time;
    assert '_' !in date;
    assert '_' !in time;
    Text.SplitAfterPiece(date, '_', time);
    Text.SplitWithoutSeparator(time, '_');
    TimeSeparators(t);
  }

  /** Replacing '-' by ':' turns the file-name time into the clock time. */
  lemma TimeSeparators(t: Clock.DateTime)
    requires Clock.Valid(t)
    ensures Text.ReplaceChar(Clock.TimePart(t, '-'), '-', ':') == Clock.TimePart(t, ':')
  {
    var a, b := Clock.TimePart(t, '-'), Clock.TimePart(t, ':');
    var h, m, s := Clock.Pad(t.hour, 2), Clock.Pad(t.minute, 2), Clock.Pad(t.second, 2);
    assert a == h + ['-'] + m + ['-'] + s;
    assert b == h + [':'] + m + [':'] + s;
    forall i | 0 <= i < |a|
      ensures Text.ReplaceChar(a, '-', ':')[i] == b[i]
    {
      if i < 2 {
        assert a[i] == h[i] && b[i] == h[i];
      } else if i == 2 || i == 5 {
      } else if i < 5 {
        assert a[i] == m[i - 3] && b[i] == m[i - 3];
      } else {
        assert a[i] == s[i - 6] && b[i] == s[i - 6];
      }
    }
  }

  /** A stem with no '_', or with two, has no timestamp and its file is skipped. */
  lemma OtherStemsSkipped(p: string, q: string, u: string)
    requires '_' !in p && '_' !in q && '_' !in u
    ensures StemTimestamp(p).None?
    ensures StemTimestamp(p + "_" + q + "_" + u).None?
  {
    Text.SplitWithoutSeparator(p, '_');
    Text.SplitWithoutSeparator(u, '_');
    Text.SplitAfterPiece(q, '_', u);
    Text.SplitAfterPiece(p, '_', q + "_" + u);
    assert p + "_" + q + "_" + u == p + ['_'] + (q + ['_'] + u);
  }

  /** `status_map.get(result, "failed")`; `Err` is the `TypeError` of an unhashable result. */
  function StatusOf(result: Json): (r: Result<string, string>)
    ensures r == Ok("filled") <==> result == JStr("success")
    ensures r == Ok("failed") <==> !result.JArr? && !result.JObj? && result != JStr("success")
    ensures r.Err? <==> result.JArr? || result.JObj?
  {
    match result
    case JArr(_) => Err("TypeError: unhashable type")
    case JObj(_) => Err("TypeError: unhashable type")
    case JStr(s) => Ok(if s == "success" then "filled" else "failed")
    case _ => Ok("failed")
  }

  /** One entry of the trade history. */
  datatype Trade = Trade(timestamp: string, stockCode: Json, stockName: Json, action: Json, qty: Json,
                         price: Json, status: string)

  function TradeStamp(t: Trade): string { t.timestamp }

  const NoGet := "AttributeError: object has no attribute 'get'"

  /**
   * The trade of one order record: missing fields default to "", "buy", 0 and 0, and the
   * stock name repeats the stock code. `Err` is the exception `.get` or the status map
   * raises on a record of the wrong shape.
   */
  function TradeOf(timestamp: string, item: Json): (r: Result<Trade, string>)
    ensures r.Ok? <==> item.JObj? && GetOr(item.fields, "order", JObj(map[])).JObj?
                       && StatusOf(GetOr(item.fields, "result", JStr("failed"))).Ok?
    ensures r.Ok? ==> r.value.timestamp == timestamp && r.value.stockName == r.value.stockCode
    ensures r.Ok? ==> (r.value.status == "filled" <==> GetOr(item.fields, "result", JStr("failed")) == JStr("success"))
    ensures r.Ok? ==> r.value.status == "filled" || r.value.status == "failed"
  {
    if !item.JObj? then Err(NoGet)
    else
      var order := GetOr(item.fields, "order", JObj(map[]));
      var result := GetOr(item.fields, "result", JStr("failed"));
      if !order.JObj? then Err(NoGet)
      else
        match StatusOf(result)
        case Err(e) => Err(e)
        case Ok(status) =>
          var code := GetOr(order.fields, "stock_code", JStr(""));
          Ok(Trade(timestamp, code, code, GetOr(order.fields, "action", JStr("buy")),
                   GetOr(order.fields, "qty", JInt(0)), GetOr(order.fields, "price", JInt(0)), status))
  }

  /** An empty record is a failed buy of nothing. */
  lemma EmptyRecordDefaults(timestamp: string)
    ensures TradeOf(timestamp, JObj(map[])) == Ok(Trade(timestamp, JStr(""), JStr(""), JStr("buy"), JInt(0), JInt(0), "failed"))
  {
    assert StatusOf(JStr("failed")) == Ok("failed");
  }

  /** The trades of a decoded list of records, in order; the first bad record raises. */
  function TradesOfItems(timestamp: string, items: seq<Json>): (r: Result<seq<Trade>, string>)
    ensures r.Ok? <==> forall i :: 0 <= i < |items| ==> TradeOf(timestamp, items[i]).Ok?
    ensures r.Ok? ==> |r.value| == |items|
    ensures r.Ok? ==> forall i :: 0 <= i < |items| ==> r.value[i] == TradeOf(timestamp, items[i]).value
  {
    if items == [] then Ok([])
    else
      var n := |items| - 1;
      match TradesOfItems(timestamp, items[..n])
      case Err(e) => Err(e)
      case Ok(before) =>
        match TradeOf(timestamp, items[n])
        case Err(e) => Err(e)
        case Ok(t) => Ok(before + [t])
  }

  /**
   * `for item in orders_data`: a list gives its records; an empty dict or string gives
   * nothing; the members of a non-empty dict or string have no `.get`; anything else is
   * not iterable.
   */
  function TradesOfData(timestamp: string, data: Json): (r: Result<seq<Trade>, string>)
    ensures data.JArr? ==> r == TradesOfItems(timestamp, data.items)
    ensures r.Ok? ==> forall t :: t in r.value ==> t.timestamp == timestamp && (t.status == "filled" || t.status == "failed")
  {
    match data
    case JArr(items) => TradesOfItems(timestamp, items)
    case JObj(fields) => if fields == map[] then Ok([]) else Err(NoGet)
    case JStr(s) => if s == "" then Ok([]) else Err(NoGet)
    case _ => Err("TypeError: object is not iterable")
  }

  /** The inner loop of `get_trades`: one trade appended per record. */
  method ReadTrades(timestamp: string, data: Json) returns (r: Result<seq<Trade>, string>)
    ensures r == TradesOfData(timestamp, data)
  {
    if !data.JArr? {
      return TradesOfData(timestamp, data);
    }
    var items := data.items;
    var trades: seq<Trade> := [];
    for i := 0 to |items|
      invariant TradesOfItems(timestamp, items[..i]) == Ok(trades)
    {
      assert items[..i + 1][..i] == items[..i];
      var t := TradeOf(timestamp, items[i]);
      if t.Err? {
        TradesOfItemsFail(timestamp, items, i);
        return Err(t.error);
      }
      trades := trades + [t.value];
    }
    assert items[..|items|] == items;
    r := Ok(trades);
  }

  /** The first failing record decides the error of the whole list. */
  lemma {:induction false} TradesOfItemsFail(timestamp: string, items: seq<Json>, i: nat)
    requires i < |items| && TradesOfItems(timestamp, items[..i]).Ok? && TradeOf(timestamp, items[i]).Err?
    ensures TradesOfItems(timestamp, items) == Err(TradeOf(timestamp, items[i]).error)
    decreases |items|
  {
    var n := |items| - 1;
    if i < n {
      assert items[..n][..i] == items[..i];
      TradesOfItemsFail(timestamp, items[..n], i);
    } else {
      assert items[..i] == items[..n];
    }
  }

  /** What the `## Data` section of a report gives once the file is read. */
  datatype DataSection =
    | NoSection           // no section, or an empty one, or "[]"
    | Unreadable          // reading or decoding raised a `ValueError`
    | Decoded(value: Json)

  /** What one report file contributes to the scan. */
  datatype FileOutcome = Skipped | Raised(error: string) | Read(trades: seq<Trade>)

  function ScanFile(f: Reports.Entry, parse: string -> DataSection): FileOutcome
    requires Reports.IsMarkdown(f.name)
  {
    match StemTimestamp(Stem(f.name))
    case None => Skipped
    case Some(timestamp) =>
      match parse(f.content)
      case Decoded(value) =>
        (match TradesOfData(timestamp, value)
         case Err(e) => Raised(e)
         case Ok(ts) => Read(ts))
      case _ => Skipped
  }

  predicate AllMarkdown(files: Reports.Dir)
  {
    forall f :: f in files ==> Reports.IsMarkdown(f.name)
  }

  /**
   * The scan of `get_trades` over the files after `acc` was collected: a skipped file
   * does not reach the limit check, and the scan stops after the file that brings the
   * count to `limit`.
   */
  function Scan(files: Reports.Dir, limit: int, parse: string -> DataSection, acc: seq<Trade>): Result<seq<Trade>, string>
    requires AllMarkdown(files)
    decreases |files|
  {
    if files == [] then Ok(acc)
    else
      match ScanFile(files[0], parse)
      case Skipped => Scan(files[1..], limit, parse, acc)
      case Raised(e) => Err(e)
      case Read(ts) => if |acc + ts| >= limit then Ok(acc + ts) else Scan(files[1..], limit, parse, acc + ts)
  }

  lemma NewestAllMarkdown(d: Reports.Dir)
    ensures AllMarkdown(Reports.Newest(d))
  {
    forall f | f in Reports.Newest(d)
      ensures Reports.IsMarkdown(f.name)
    {
      assert f in multiset(Reports.Newest(d));
    }
  }

  /** `get_trades` on the executor's report directory, `None` when it does not exist. */
  function Trades(dir: Option<Reports.Dir>, limit: int, parse: string -> DataSection): Result<seq<Trade>, string>
  {
    if dir.None? then Ok([])
    else
      NewestAllMarkdown(dir.value);
      match Scan(Reports.Newest(dir.value), limit, parse, [])
      case Err(e) => Err(e)
      case Ok(trades) => Ok(Text.PyTake(Sorting.SortDescBy(trades, TradeStamp), limit))
  }

  function ExecutorDir(m: Reports.ReportManager): Option<Reports.Dir>
    reads m
  {
    if "trade_executor" in m.dirs then Some(m.dirs["trade_executor"]) else None
  }

  /** `get_trades`: the scan over the files, newest first, then the sort and the slice. */
  method GetTrades(m: Reports.ReportManager, limit: int, parse: string -> DataSection)
    returns (r: Result<seq<Trade>, string>)
    ensures r == Trades(ExecutorDir(m), limit, parse)
  {
    if "trade_executor" !in m.dirs {
      return Ok([]);
    }
    var files := Reports.Newest(m.dirs["trade_executor"]);
    NewestAllMarkdown(m.dirs["trade_executor"]);
    var scanned := ScanFiles(files, limit, parse);
    if scanned.Err? {
      return Err(scanned.error);
    }
    r := Ok(Text.PyTake(Sorting.SortDescBy(scanned.value, TradeStamp), limit));
  }

  /** The loop of `get_trades` over the files, newest first, until `limit` trades are read. */
  method ScanFiles(files: Reports.Dir, limit: int, parse: string -> DataSection)
    returns (r: Result<seq<Trade>, string>)
    requires AllMarkdown(files)
    ensures r == Scan(files, limit, parse, [])
  {
    var trades: seq<Trade> := [];
    var i := 0;
    while i < |files|
      invariant 0 <= i <= |files|
      invariant Scan(files, limit, parse, []) == Scan(files[i..], limit, parse, trades)
    {
      assert files[i..][0] == files[i] && files[i..][1..] == files[i + 1..];
      assert files[i] in files;
      var outcome := ScanOne(files[i], parse);
      i := i + 1;
      if outcome.Skipped? {
        continue;
      }
      if outcome.Raised? {
        return Err(outcome.error);
      }
      trades := trades + outcome.trades;
      if |trades| >= limit {
        return Ok(trades);
      }
    }
    r := Ok(trades);
  }

  /** The `try` body of `get_trades` for one file, its `continue`s as `Skipped`. */
  method ScanOne(f: Reports.Entry, parse: string -> DataSection) returns (outcome: FileOutcome)
    requires Reports.IsMarkdown(f.name)
    ensures outcome == ScanFile(f, parse)
  {
    var stamp := StemTimestamp(Stem(f.name));
    if stamp.None? {
      return Skipped;
    }
    var section := parse(f.content);
    if !section.Decoded? {
      return Skipped;
    }
    var added := ReadTrades(stamp.value, section.value);
    if added.Err? {
      return Raised(added.error);
    }
    return Read(added.value);
  }

  /** Every trade the scan collects carries a file's timestamp and a status of "filled" or "failed". */
  lemma {:induction false} ScanTrades(files: Reports.Dir, limit: int, parse: string -> DataSection, acc: seq<Trade>)
    requires AllMarkdown(files)
    ensures Scan(files, limit, parse, acc).Ok? ==> forall t :: t in Scan(files, limit, parse, acc).value ==>
      t in acc || ((t.status == "filled" || t.status == "failed")
                   && exists f :: f in files && StemTimestamp(Stem(f.name)) == Some(t.timestamp))
    decreases |files|
  {
    if files != [] {
      var f := files[0];
      assert f in files;
      assert forall g :: g in files[1..] ==> g in files;
      match ScanFile(f, parse)
      case Skipped =>
        ScanTrades(files[1..], limit, parse, acc);
      case Raised(_) =>
      case Read(ts) =>
        ScanTrades(files[1..], limit, parse, acc + ts);
    }
  }

  /** Sorting newest first and slicing keeps the order, the bound and only given elements. */
  lemma TakeSorted<T>(xs: seq<T>, key: T -> string, limit: int)
    ensures Sorting.SortedDescBy(Text.PyTake(Sorting.SortDescBy(xs, key), limit), key)
    ensures limit >= 0 ==> |Text.PyTake(Sorting.SortDescBy(xs, key), limit)| <= limit
    ensures forall x :: x in Text.PyTake(Sorting.SortDescBy(xs, key), limit) ==> x in xs
    ensures limit >= |xs| ==> multiset(Text.PyTake(Sorting.SortDescBy(xs, key), limit)) == multiset(xs)
  {
    var sorted := Sorting.SortDescBy(xs, key);
    Sorting.SortDescBySorted(xs, key);
    assert |sorted| == |xs| by {
      assert |multiset(sorted)| == |multiset(xs)|;
    }
    var r := Text.PyTake(sorted, limit);
    forall x | x in r
      ensures x in xs
    {
      assert x in multiset(sorted);
    }
  }

  /**
   * The trade history is newest first, at most `limit` long for a non-negative limit,
   * and every trade is a filled or failed order from a report whose name gave its time.
   */
  lemma TradesNewestFirst(dir: Option<Reports.Dir>, limit: int, parse: string -> DataSection)
    ensures var r := Trades(dir, limit, parse);
      r.Ok? ==> (Sorting.SortedDescBy(r.value, TradeStamp)
                 && (limit >= 0 ==> |r.value| <= limit)
                 && forall t :: t in r.value ==>
                      (t.status == "filled" || t.status == "failed")
                      && exists f :: f in Reports.Markdown(dir.value) && StemTimestamp(Stem(f.name)) == Some(t.timestamp))
  {
    if dir.Some? {
      var d := dir.value;
      NewestAllMarkdown(d);
      var scanned := Scan(Reports.Newest(d), limit, parse, []);
      if scanned.Ok? {
        var r := Text.PyTake(Sorting.SortDescBy(scanned.value, TradeStamp), limit);
        assert Trades(dir, limit, parse) == Ok(r);
        TakeSorted(scanned.value, TradeStamp, limit);
        TradesFromReports(d, limit, parse, r);
      }
    }
  }

  /** Trades drawn from a scan of the newest-first listing are filled or failed orders of its reports. */
  lemma TradesFromReports(d: Reports.Dir, limit: int, parse: string -> DataSection, r: seq<Trade>)
    requires AllMarkdown(Reports.Newest(d))
    requires Scan(Reports.Newest(d), limit, parse, []).Ok?
    requires forall t :: t in r ==> t in Scan(Reports.Newest(d), limit, parse, []).value
    ensures forall t :: t in r ==>
      (t.status == "filled" || t.status == "failed")
      && exists f :: f in Reports.Markdown(d) && StemTimestamp(Stem(f.name)) == Some(t.timestamp)
  {
    var files := Reports.Newest(d);
    ScanTrades(files, limit, parse, []);
    forall f | f in files
      ensures f in Reports.Markdown(d)
    {
      assert f in multiset(files);
    }
  }

  // ---------------------------------------------------------------------------
  // the report listings
  // ---------------------------------------------------------------------------

  /** One entry of `get_all_reports`. */
  datatype ReportFile = ReportFile(filename: string, agent: string, content: string)

  function FileName(r: ReportFile): string { r.filename }

  /** The markdown files of one agent's directory, in listing order. */
  function FilesOf(agent: string, d: Reports.Dir): (r: seq<ReportFile>)
    ensures |r| == |Reports.Markdown(d)|
  {
    var md := Reports.Markdown(d);
    seq(|md|, i requires 0 <= i < |md| => ReportFile(md[i].name, agent, md[i].content))
  }

  /** The files of the given agents, agent by agent, skipping a missing directory. */
  function Gathered(dirs: map<string, Reports.Dir>, agents: seq<string>): seq<ReportFile>
  {
    if agents == [] then []
    else
      var n := |agents| - 1;
      Gathered(dirs, agents[..n]) + (if agents[n] in dirs then FilesOf(agents[n], dirs[agents[n]]) else [])
  }

  /** `get_all_reports`: every agent's reports, newest file name first, at most `limit`. */
  function AllReports(dirs: map<string, Reports.Dir>, limit: int): seq<ReportFile>
  {
    Text.PyTake(Sorting.SortDescBy(Gathered(dirs, Reports.KnownAgents), FileName), limit)
  }

  /** `get_all_reports`: a loop over the four agents with an inner loop over each directory. */
  method GetAllReports(m: Reports.ReportManager, limit: int) returns (r: seq<ReportFile>)
    ensures r == AllReports(m.dirs, limit)
  {
    var agents := Reports.KnownAgents;
    var all: seq<ReportFile> := [];
    for k := 0 to |agents|
      invariant all == Gathered(m.dirs, agents[..k])
    {
      assert agents[..k + 1][..k] == agents[..k];
      var agent := agents[k];
      if agent !in m.dirs {
        continue;
      }
      var files := AgentFiles(agent, m.dirs[agent]);
      all := all + files;
    }
    assert agents[..|agents|] == agents;
    r := Text.PyTake(Sorting.SortDescBy(all, FileName), limit);
  }

  /** The inner loop of `get_all_reports` over one directory's `*.md` files. */
  method AgentFiles(agent: string, d: Reports.Dir) returns (r: seq<ReportFile>)
    ensures r == FilesOf(agent, d)
  {
    var md := Reports.Markdown(d);
    r := [];
    for i := 0 to |md|
      invariant r == FilesOf(agent, d)[..i]
    {
      r := r + [ReportFile(md[i].name, agent, md[i].content)];
    }
  }

  /** A gathered file is a markdown file of one of the agents, under that agent's name. */
  lemma {:induction false} GatheredFrom(dirs: map<string, Reports.Dir>, agents: seq<string>, x: ReportFile)
    requires x in Gathered(dirs, agents)
    ensures x.agent in agents && x.agent in dirs
    ensures Reports.Entry(x.filename, x.content) in Reports.Markdown(dirs[x.agent])
    decreases |agents|
  {
    var n := |agents| - 1;
    if x in Gathered(dirs, agents[..n]) {
      GatheredFrom(dirs, agents[..n], x);
      assert x.agent in agents;
    } else {
      var files := FilesOf(agents[n], dirs[agents[n]]);
      var i :| 0 <= i < |files| && files[i] == x;
      assert Reports.Markdown(dirs[agents[n]])[i] == Reports.Entry(x.filename, x.content);
    }
  }

  /**
   * The listing is newest first by file name and at most `limit` long; every entry is a
   * report of one of the four agents; with a large enough limit nothing is lost.
   */
  lemma AllReportsNewestFirst(dirs: map<string, Reports.Dir>, limit: int)
    ensures Sorting.SortedDescBy(AllReports(dirs, limit), FileName)
    ensures limit >= 0 ==> |AllReports(dirs, limit)| <= limit
    ensures forall x :: x in AllReports(dirs, limit) ==>
      x.agent in Reports.KnownAgents && x.agent in dirs
      && Reports.Entry(x.filename, x.content) in Reports.Markdown(dirs[x.agent])
    ensures limit >= |Gathered(dirs, Reports.KnownAgents)| ==>
      multiset(AllReports(dirs, limit)) == multiset(Gathered(dirs, Reports.KnownAgents))
  {
    var all := Gathered(dirs, Reports.KnownAgents);
    TakeSorted(all, FileName, limit);
    forall x | x in AllReports(dirs, limit)
      ensures x.agent in Reports.KnownAgents && x.agent in dirs
      ensures Reports.Entry(x.filename, x.content) in Reports.Markdown(dirs[x.agent])
    {
      GatheredFrom(dirs, Reports.KnownAgents, x);
    }
  }

  /** One entry of `get_agent_reports`. */
  datatype ReportRef = ReportRef(filename: string, agent: string)

  /** `get_agent_reports`: the first `limit` names of the agent's listing. */
  function AgentReports(m: Reports.ReportManager, name: string, limit: int): (r: seq<ReportRef>)
    reads m
    ensures |r| == |Text.PyTake(m.ListReports(name), limit)|
  {
    var names := Text.PyTake(m.ListReports(name), limit);
    seq(|names|, i requires 0 <= i < |names| => ReportRef(names[i], name))
  }

  /** The agent's reports are its newest file names first, at most `limit`, each under its name. */
  lemma AgentReportsNewestFirst(m: Reports.ReportManager, name: string, limit: int)
    ensures var r := AgentReports(m, name, limit);
      && (forall i, j :: 0 <= i < j < |r| ==> !Sorting.Less(r[i].filename, r[j].filename))
      && (limit >= 0 ==> |r| <= limit)
      && (forall x :: x in r ==> (x.agent == name && x.filename in m.ListReports(name)))
  {
    Reports.ListingIsNewestFirst(m, name);
    var listing := m.ListReports(name);
    var names := Text.PyTake(listing, limit);
    var r := AgentReports(m, name, limit);
    assert forall i :: 0 <= i < |r| ==> r[i].filename == names[i] == listing[i];
  }
}
