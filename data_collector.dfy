/**
 * The data collector's own logic: the plain views of a quote and of the daily history,
 * the collection loop over the watchlist that skips a code whose fetch raises, and the
 * prompt built from what was collected.
 *
 * What the broker returns for each code is an input (`Fetch`). `market_data` is an
 * insertion-ordered dict, modelled as a sequence of (code, entry) pairs with distinct codes.
 */
module DataCollector {
  import opened Wrappers
  import Text
  import Models

  /** `_format_price`: seven of the quote's fields under their plain names. */
  datatype PriceView = PriceView(current_price: string, open: string, high: string, low: string, volume: string,
                                 change_rate_pct: string, change_amount: string)

  /** One entry of `_format_daily`. */
  datatype DailyView = DailyView(date: string, open: string, high: string, low: string, close: string,
                                 volume: string, change_rate_pct: string)

  function FormatPrice(p: Models.StockPrice): PriceView
  {
    PriceView(p.stck_prpr, p.stck_oprc, p.stck_hgpr, p.stck_lwpr, p.acml_vol, p.prdy_ctrt, p.prdy_vrss)
  }

  /** The quote back from its view and the three fields the view leaves out. */
  function PriceOfView(v: PriceView, sign: string, upper: string, lower: string): Models.StockPrice
  {
    Models.StockPrice(v.current_price, v.open, v.high, v.low, v.volume, v.change_rate_pct,
                      v.change_amount, sign, upper, lower)
  }

  /** The view keeps every field but the change sign and the two price limits. */
  lemma FormatPriceKeepsSevenFields(p: Models.StockPrice)
    ensures PriceOfView(FormatPrice(p), p.prdy_vrss_sign, p.stck_mxpr, p.stck_llam) == p
    ensures forall sign, upper, lower :: FormatPrice(PriceOfView(FormatPrice(p), sign, upper, lower)) == FormatPrice(p)
  {
  }

  function FormatDay(d: Models.DailyPrice): DailyView
  {
    DailyView(d.stck_bsop_date, d.stck_oprc, d.stck_hgpr, d.stck_lwpr, d.stck_clpr, d.acml_vol, d.prdy_ctrt)
  }

  function DayOfView(v: DailyView): Models.DailyPrice
  {
    Models.DailyPrice(v.date, v.open, v.high, v.low, v.close, v.volume, v.change_rate_pct)
  }

  /** `_format_daily`: one view per day, in the same order. */
  function FormatDaily(days: seq<Models.DailyPrice>): (r: seq<DailyView>)
    ensures |r| == |days|
    ensures forall i :: 0 <= i < |days| ==> r[i] == FormatDay(days[i])
  {
    seq(|days|, i requires 0 <= i < |days| => FormatDay(days[i]))
  }

  /** Nothing of the daily history is lost: the days can be read back from their views. */
  lemma FormatDailyLossless(days: seq<Models.DailyPrice>)
    ensures seq(|days|, i requires 0 <= i < |days| => DayOfView(FormatDaily(days)[i])) == days
  {
  }

  // ---------------------------------------------------------------------------
  // the collection loop
  // ---------------------------------------------------------------------------

  datatype Entry = Entry(current: PriceView, daily: seq<DailyView>)

  /** `market_data`, in insertion order. */
  type MarketData = seq<(string, Entry)>

  function Codes(md: MarketData): (r: seq<string>)
    ensures |r| == |md|
  {
    seq(|md|, i requires 0 <= i < |md| => md[i].0)
  }

  predicate DistinctCodes(md: MarketData)
  {
    forall i, j :: 0 <= i < j < |md| ==> md[i].0 != md[j].0
  }

  /** `market_data.get(code)`: the entry stored under the first pair with that code. */
  function EntryOf(md: MarketData, code: string): Option<Entry>
  {
    if md == [] then None
    else if md[0].0 == code then Some(md[0].1)
    else EntryOf(md[1..], code)
  }

  /** `market_data[code] = entry`: an existing code keeps its place, a new one goes last. */
  function Put(md: MarketData, code: string, entry: Entry): (r: MarketData)
    ensures |r| == |md| || |r| == |md| + 1
    ensures forall c :: c in Codes(r) <==> c in Codes(md) || c == code
    ensures DistinctCodes(md) ==> DistinctCodes(r)
    ensures code in Codes(md) ==> |r| == |md|
  {
    if md == [] then
      assert Codes([(code, entry)]) == [code];
      [(code, entry)]
    else if md[0].0 == code then
      assert Codes(md) == [code] + Codes(md[1..]);
      assert Codes([(code, entry)] + md[1..]) == [code] + Codes(md[1..]);
      [(code, entry)] + md[1..]
    else
      var rest := Put(md[1..], code, entry);
      assert Codes(md) == [md[0].0] + Codes(md[1..]);
      assert Codes([md[0]] + rest) == [md[0].0] + Codes(rest);
      assert DistinctCodes(md) ==> md[0].0 !in Codes(md[1..]) by {
        if DistinctCodes(md) {
          forall k | 0 <= k < |md| - 1
            ensures Codes(md[1..])[k] != md[0].0
          {
            assert Codes(md[1..])[k] == md[k + 1].0;
          }
        }
      }
      assert forall j :: 0 <= j < |rest| ==> rest[j].0 == Codes(rest)[j];
      [md[0]] + rest
  }

  /** `market_data[code] = entry` appends a new code last and leaves every other pair where it was. */
  lemma {:induction false} PutPositions(md: MarketData, code: string, entry: Entry)
    ensures code !in Codes(md) ==> Put(md, code, entry) == md + [(code, entry)]
    ensures forall i :: 0 <= i < |md| && md[i].0 != code ==> Put(md, code, entry)[i] == md[i]
  {
    if md != [] && md[0].0 != code {
      var rest := Put(md[1..], code, entry);
      PutPositions(md[1..], code, entry);
      assert Codes(md) == [md[0].0] + Codes(md[1..]);
      assert Put(md, code, entry) == [md[0]] + rest;
      assert md == [md[0]] + md[1..];
      if code !in Codes(md) {
        assert [md[0]] + (md[1..] + [(code, entry)]) == md + [(code, entry)];
      }
      forall i | 1 <= i < |md| && md[i].0 != code
        ensures Put(md, code, entry)[i] == md[i]
      {
        assert md[i] == md[1..][i - 1];
      }
    } else if md == [] {
      assert Put(md, code, entry) == [(code, entry)] == md + [(code, entry)];
    } else {
      assert Codes(md)[0] == code;
    }
  }

  /** After `market_data[code] = entry`, the code reads as the entry and every other code as before. */
  lemma {:induction false} PutEntries(md: MarketData, code: string, entry: Entry, c: string)
    ensures EntryOf(Put(md, code, entry), code) == Some(entry)
    ensures c != code ==> EntryOf(Put(md, code, entry), c) == EntryOf(md, c)
  {
    if md != [] && md[0].0 != code {
      var rest := Put(md[1..], code, entry);
      PutEntries(md[1..], code, entry, c);
      assert Put(md, code, entry) == [md[0]] + rest;
      assert ([md[0]] + rest)[1..] == rest;
    } else if md != [] {
      assert ([(code, entry)] + md[1..])[1..] == md[1..];
    }
  }

  /** What fetching one code did: the quote raised, the daily history raised, or both answered. */
  datatype Fetch = PriceFailed | DailyFailed(price: Models.StockPrice) | Fetched(price: Models.StockPrice, days: seq<Models.DailyPrice>)

  /** A call made to the broker. */
  datatype Request = PriceRequest(code: string) | DailyRequest(code: string, count: nat)

  /** The number of days of history requested per code. */
  const DailyCount := 5

  /** `market_data` after the loop has seen `watchlist`, a code whose fetch raised being skipped. */
  function Collected(watchlist: seq<string>, fetches: seq<Fetch>): (md: MarketData)
    requires |fetches| == |watchlist|
    ensures |md| <= |watchlist|
    ensures DistinctCodes(md)
  {
    if watchlist == [] then []
    else
      var n := |watchlist| - 1;
      var before := Collected(watchlist[..n], fetches[..n]);
      match fetches[n]
      case Fetched(price, days) => Put(before, watchlist[n], Entry(FormatPrice(price), FormatDaily(days)))
      case _ => before
  }

  /**
   * The entry collected for a code is built from the last position of the watchlist at
   * which both of its fetches answered: `_format_price` of the quote and `_format_daily`
   * of the history.
   */
  lemma {:induction false} CollectedEntry(watchlist: seq<string>, fetches: seq<Fetch>, i: nat)
    requires |fetches| == |watchlist| && i < |watchlist| && fetches[i].Fetched?
    requires forall j :: i < j < |watchlist| && watchlist[j] == watchlist[i] ==> !fetches[j].Fetched?
    ensures EntryOf(Collected(watchlist, fetches), watchlist[i])
         == Some(Entry(FormatPrice(fetches[i].price), FormatDaily(fetches[i].days)))
    decreases |watchlist|
  {
    var n := |watchlist| - 1;
    var before := Collected(watchlist[..n], fetches[..n]);
    if i == n {
      PutEntries(before, watchlist[n], Entry(FormatPrice(fetches[n].price), FormatDaily(fetches[n].days)), watchlist[i]);
    } else {
      assert forall j :: i < j < n && watchlist[..n][j] == watchlist[..n][i] ==> !fetches[..n][j].Fetched?;
      CollectedEntry(watchlist[..n], fetches[..n], i);
      if fetches[n].Fetched? {
        PutEntries(before, watchlist[n], Entry(FormatPrice(fetches[n].price), FormatDaily(fetches[n].days)), watchlist[i]);
      }
    }
  }

  /** The broker calls of the loop: the quote for each code, then its history when the quote answered. */
  function Requests(watchlist: seq<string>, fetches: seq<Fetch>): seq<Request>
    requires |fetches| == |watchlist|
  {
    if watchlist == [] then []
    else
      var n := |watchlist| - 1;
      Requests(watchlist[..n], fetches[..n])
      + [PriceRequest(watchlist[n])] + (if fetches[n].PriceFailed? then [] else [DailyRequest(watchlist[n], DailyCount)])
  }

  /** The collection loop of `run_cycle`. */
  method Collect(watchlist: seq<string>, fetches: seq<Fetch>) returns (md: MarketData, requests: seq<Request>)
    requires |fetches| == |watchlist|
    ensures md == Collected(watchlist, fetches)
    ensures requests == Requests(watchlist, fetches)
  {
    md := [];
    requests := [];
    for i := 0 to |watchlist|
      invariant md == Collected(watchlist[..i], fetches[..i])
      invariant requests == Requests(watchlist[..i], fetches[..i])
    {
      assert watchlist[..i + 1][..i] == watchlist[..i] && fetches[..i + 1][..i] == fetches[..i];
      var code := watchlist[i];
      requests := requests + [PriceRequest(code)];
      match fetches[i]
      case PriceFailed =>
      case DailyFailed(_) =>
        requests := requests + [DailyRequest(code, DailyCount)];
      case Fetched(price, days) =>
        requests := requests + [DailyRequest(code, DailyCount)];
        md := Put(md, code, Entry(FormatPrice(price), FormatDaily(days)));
    }
    assert watchlist[..|watchlist|] == watchlist && fetches[..|fetches|] == fetches;
  }

  /** A code is collected exactly when one of its fetches answered; the others are still collected. */
  lemma {:induction false} CollectedCodes(watchlist: seq<string>, fetches: seq<Fetch>, c: string)
    requires |fetches| == |watchlist|
    ensures c in Codes(Collected(watchlist, fetches)) <==>
      exists i :: 0 <= i < |watchlist| && watchlist[i] == c && fetches[i].Fetched?
    decreases |watchlist|
  {
    if watchlist != [] {
      var n := |watchlist| - 1;
      CollectedCodes(watchlist[..n], fetches[..n], c);
      if exists i :: 0 <= i < n + 1 && watchlist[i] == c && fetches[i].Fetched? {
        var i :| 0 <= i < n + 1 && watchlist[i] == c && fetches[i].Fetched?;
        if i < n {
          assert watchlist[..n][i] == c && fetches[..n][i].Fetched?;
        }
      }
      if exists i :: 0 <= i < n && watchlist[..n][i] == c && fetches[..n][i].Fetched? {
        var i :| 0 <= i < n && watchlist[..n][i] == c && fetches[..n][i].Fetched?;
        assert watchlist[i] == c && fetches[i].Fetched?;
      }
    }
  }

  /** Every history request asks for five days. */
  lemma {:induction false} HistoryRequestsFiveDays(watchlist: seq<string>, fetches: seq<Fetch>)
    requires |fetches| == |watchlist|
    ensures forall r :: r in Requests(watchlist, fetches) && r.DailyRequest? ==> r.count == 5
    decreases |watchlist|
  {
    if watchlist != [] {
      var n := |watchlist| - 1;
      HistoryRequestsFiveDays(watchlist[..n], fetches[..n]);
    }
  }

  /** `actions`: how many codes were collected out of the watchlist's size. */
  function Actions(md: MarketData, watchlist: seq<string>): string
  {
    "Collected market data for " + Text.NatToString(|md|) + "/" + Text.NatToString(|watchlist|) + " watchlist stocks"
  }

  // ---------------------------------------------------------------------------
  // the prompt
  // ---------------------------------------------------------------------------

  const MarketHeading := "## Current Market Data\n"
  const HistoryHeading := "Recent daily history:"
  const NotesHeading := "## Risk Manager Notes\n"

  /** The block of one code: quote, change, open/high/low and volume. */
  function StockBlock(code: string, cur: PriceView): string
  {
    "### Stock " + code + "\n"
    + "- Current price: " + cur.current_price + "  Change: " + cur.change_rate_pct + "%\n"
    + "- Open: " + cur.open + "  High: " + cur.high + "  Low: " + cur.low + "\n"
    + "- Volume: " + cur.volume + "\n"
  }

  function DayLine(d: DailyView): string
  {
    "  " + d.date + ": O=" + d.open + " H=" + d.high + " L=" + d.low + " C=" + d.close + " Vol=" + d.volume
    + " Chg=" + d.change_rate_pct + "%"
  }

  function DayLines(days: seq<DailyView>): (r: seq<string>)
    ensures |r| == |days|
  {
    if days == [] then [] else DayLines(days[..|days| - 1]) + [DayLine(days[|days| - 1])]
  }

  /** The parts one code adds: its block, the history when there is one, and an empty line. */
  function EntryParts(code: string, e: Entry): seq<string>
  {
    [StockBlock(code, e.current)] + (if e.daily == [] then [] else [HistoryHeading] + DayLines(e.daily)) + [""]
  }

  function EntriesParts(md: MarketData): seq<string>
  {
    if md == [] then [] else EntriesParts(md[..|md| - 1]) + EntryParts(md[|md| - 1].0, md[|md| - 1].1)
  }

  /** `_build_context`, as the parts it joins by newlines. */
  function ContextParts(md: MarketData, risk: seq<string>): seq<string>
  {
    [MarketHeading] + EntriesParts(md) + (if risk == [] then [] else [NotesHeading] + risk)
  }

  /** `_build_context`: a loop over the collected codes. */
  method BuildContext(md: MarketData, risk: seq<string>) returns (context: string)
    ensures context == Text.Join(ContextParts(md, risk), "\n")
  {
    var parts: seq<string> := [MarketHeading];
    for i := 0 to |md|
      invariant parts == [MarketHeading] + EntriesParts(md[..i])
    {
      assert md[..i + 1][..i] == md[..i];
      var entry := AppendEntry(md[i].0, md[i].1);
      assert EntriesParts(md[..i + 1]) == EntriesParts(md[..i]) + entry;
      parts := parts + entry;
    }
    assert md[..|md|] == md;
    if risk != [] {
      parts := parts + [NotesHeading];
      parts := parts + risk;
    }
    assert parts == ContextParts(md, risk);
    context := Text.Join(parts, "\n");
  }

  /** The appends for one code, with the inner loop over its history. */
  method AppendEntry(code: string, e: Entry) returns (parts: seq<string>)
    ensures parts == EntryParts(code, e)
  {
    parts := [StockBlock(code, e.current)];
    if e.daily != [] {
      parts := parts + [HistoryHeading];
      for j := 0 to |e.daily|
        invariant parts == [StockBlock(code, e.current), HistoryHeading] + DayLines(e.daily[..j])
      {
        assert e.daily[..j + 1][..j] == e.daily[..j];
        parts := parts + [DayLine(e.daily[j])];
      }
      assert e.daily[..|e.daily|] == e.daily;
    }
    parts := parts + [""];
  }

  /**
   * One code's parts: its "### Stock <code>" block first, then "Recent daily history:"
   * exactly when it has a history, one line per day, and an empty line.
   */
  lemma EntryShape(code: string, e: Entry)
    ensures var ps := EntryParts(code, e);
      && |ps| == (if e.daily == [] then 2 else 3 + |e.daily|)
      && ps[0][..|"### Stock " + code + "\n"|] == "### Stock " + code + "\n"
      && (ps[1] == HistoryHeading <==> e.daily != [])
      && ps[|ps| - 1] == ""
  {
    var ps := EntryParts(code, e);
    assert ps[0] == StockBlock(code, e.current);
    if e.daily == [] {
      assert ps[1] == "";
    }
  }

  /** The parts of the collected codes never start a risk-notes heading. */
  lemma {:induction false} EntriesNoNotes(md: MarketData)
    ensures NotesHeading !in EntriesParts(md)
    decreases |md|
  {
    if md != [] {
      var init := md[..|md| - 1];
      EntriesNoNotes(init);
      EntryNoNotes(md[|md| - 1].0, md[|md| - 1].1);
      assert EntriesParts(md) == EntriesParts(init) + EntryParts(md[|md| - 1].0, md[|md| - 1].1);
    }
  }

  /** No part of one code's entry is the risk-notes heading. */
  lemma EntryNoNotes(code: string, e: Entry)
    ensures NotesHeading !in EntryParts(code, e)
  {
    var block := StockBlock(code, e.current);
    var history := if e.daily == [] then [] else [HistoryHeading] + DayLines(e.daily);
    assert EntryParts(code, e) == [block] + history + [""];
    assert block[2] == '#' != NotesHeading[2];
    if NotesHeading in history {
      assert NotesHeading != HistoryHeading;
      DayLinesIndent(e.daily, NotesHeading);
      assert false;
    }
  }

  lemma {:induction false} DayLinesIndent(days: seq<DailyView>, p: string)
    requires p in DayLines(days)
    ensures |p| > 0 && p[0] == ' '
    decreases |days|
  {
    if p != DayLine(days[|days| - 1]) {
      DayLinesIndent(days[..|days| - 1], p);
    }
  }

  /** "## Risk Manager Notes" is one of the parts exactly when there are risk reports. */
  lemma NotesOnlyWithReports(md: MarketData, risk: seq<string>)
    ensures NotesHeading in ContextParts(md, risk) <==> risk != []
  {
    var front := [MarketHeading] + EntriesParts(md);
    EntriesNoNotes(md);
    assert MarketHeading[3] != NotesHeading[3];
    assert NotesHeading !in front;
    if risk != [] {
      assert ContextParts(md, risk) == front + ([NotesHeading] + risk);
      assert ContextParts(md, risk)[|front|] == NotesHeading;
    }
  }
}
