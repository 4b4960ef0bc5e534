/**
 * The KIS endpoint registry: URL paths, and the transaction id (`tr_id`) of each
 * operation per trading mode. Price queries are stored under the wildcard mode "any".
 */
module Endpoints {
  import opened Wrappers

  const Paths: map<string, string> := map[
    "token" := "/oauth2/tokenP",
    "approval" := "/oauth2/Approval",
    "hashkey" := "/uapi/hashkey",
    "price" := "/uapi/domestic-stock/v1/quotations/inquire-price",
    "daily_price" := "/uapi/domestic-stock/v1/quotations/inquire-daily-price",
    "order" := "/uapi/domestic-stock/v1/trading/order-cash",
    "order_modify" := "/uapi/domestic-stock/v1/trading/order-rvsecncl",
    "balance" := "/uapi/domestic-stock/v1/trading/inquire-balance",
    "available_cash" := "/uapi/domestic-stock/v1/trading/inquire-psbl-order"
  ]

  const TrIds: map<(string, string), string> := map[
    ("buy", "live") := "TTTC0802U",
    ("buy", "paper") := "VTTC0802U",
    ("sell", "live") := "TTTC0801U",
    ("sell", "paper") := "VTTC0801U",
    ("modify", "live") := "TTTC0803U",
    ("modify", "paper") := "VTTC0803U",
    ("balance", "live") := "TTTC8434R",
    ("balance", "paper") := "VTTC8434R",
    ("available_cash", "live") := "TTTC8908R",
    ("available_cash", "paper") := "VTTC8908R",
    ("price", "any") := "FHKST01010100",
    ("daily_price", "any") := "FHKST01010400"
  ]

  /** The operations whose id depends on the trading mode. */
  const TradingOps: set<string> := {"buy", "sell", "modify", "balance", "available_cash"}

  /** The operations whose id is stored under the wildcard mode. */
  const QuoteOps: set<string> := {"price", "daily_price"}

  /** `KeyError((operation, mode))`: the pair is not in the table. */
  datatype LookupError = KeyError(operation: string, mode: string)

  /** The wildcard entry first, then the exact pair. */
  function GetTrId(operation: string, mode: string): (r: Result<string, LookupError>)
    ensures r.Err? ==> r.error == KeyError(operation, mode)
  {
    if (operation, "any") in TrIds then Ok(TrIds[(operation, "any")])
    else if (operation, mode) in TrIds then Ok(TrIds[(operation, mode)])
    else Err(KeyError(operation, mode))
  }

  /** Price queries resolve to their wildcard id for every mode string, known or not. */
  lemma QuoteIdsIgnoreMode(mode: string)
    ensures GetTrId("price", mode) == Ok("FHKST01010100")
    ensures GetTrId("daily_price", mode) == Ok("FHKST01010400")
  {
  }

  /** Trading operations resolve only through their exact (operation, mode) key. */
  lemma TradingIdsNeedExactMode(operation: string, mode: string)
    requires operation in TradingOps
    ensures GetTrId(operation, mode).Ok? <==> mode == "paper" || mode == "live"
    ensures GetTrId(operation, mode).Ok? ==> GetTrId(operation, mode).value == TrIds[(operation, mode)]
    ensures GetTrId(operation, "any").Err?
  {
  }

  /** The lookup is defined exactly on TradingOps x {paper, live} and on QuoteOps x every mode. */
  lemma LookupDomain(operation: string, mode: string)
    ensures GetTrId(operation, mode).Ok? <==>
      (operation in TradingOps && (mode == "paper" || mode == "live")) || operation in QuoteOps
  {
  }

  /** Each paper id is the live id with its leading 'T' replaced by 'V'. */
  lemma PaperIdsMirrorLiveIds(operation: string)
    requires operation in TradingOps
    ensures GetTrId(operation, "live").Ok? && GetTrId(operation, "paper").Ok?
    ensures var live := GetTrId(operation, "live").value;
      |live| > 0 && live[0] == 'T' && GetTrId(operation, "paper").value == "V" + live[1..]
  {
    assert (operation, "any") !in TrIds;
    var live := TrIds[(operation, "live")];
    var paper := TrIds[(operation, "paper")];
    assert |live| == 9 && live[0] == 'T';
    assert paper == "V" + live[1..] by {
      if operation == "buy" {
        assert paper == "VTTC0802U" && live == "TTTC0802U";
      } else if operation == "sell" {
        assert paper == "VTTC0801U" && live == "TTTC0801U";
      } else if operation == "modify" {
        assert paper == "VTTC0803U" && live == "TTTC0803U";
      } else if operation == "balance" {
        assert paper == "VTTC8434R" && live == "TTTC8434R";
      } else {
        assert paper == "VTTC8908R" && live == "TTTC8908R";
      }
    }
  }
}
