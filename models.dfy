/**
 * The KIS response records. Every financial figure is a string, kept exactly as the
 * API sent it; optional fields have fixed defaults. `Parse*` is the validation that
 * building a record from a decoded JSON object performs (a missing required field or
 * a value of the wrong type is a validation error; unknown keys are ignored), and
 * `*Json` is the object a record dumps to.
 */
module Models {
  import opened Wrappers
  import opened JsonValue

  datatype TokenResponse = TokenResponse(access_token: string, token_type: string, expires_in: int)

  datatype StockPrice = StockPrice(
    stck_prpr: string, stck_oprc: string, stck_hgpr: string, stck_lwpr: string,
    acml_vol: string, prdy_ctrt: string,
    prdy_vrss: string, prdy_vrss_sign: string, stck_mxpr: string, stck_llam: string)

  datatype DailyPrice = DailyPrice(
    stck_bsop_date: string, stck_oprc: string, stck_hgpr: string, stck_lwpr: string,
    stck_clpr: string, acml_vol: string, prdy_ctrt: string)

  datatype OrderOutput = OrderOutput(KRX_FWDG_ORD_ORGNO: string, ODNO: string, ORD_TMD: string)

  datatype OrderResponse = OrderResponse(rt_cd: string, msg_cd: string, msg1: string, output: Option<OrderOutput>)

  datatype BalanceItem = BalanceItem(
    pdno: string, prdt_name: string, hldg_qty: string, pchs_avg_pric: string,
    prpr: string, evlu_pfls_amt: string, evlu_pfls_rt: string)

  datatype AccountBalance = AccountBalance(items: seq<BalanceItem>, total_evlu_amt: string, total_evlu_pfls_amt: string)

  /** The record that failed validation. */
  datatype ValidationError = ValidationError(model: string)

  /** `AccountBalance()` with every field left at its default. */
  const EmptyBalance := AccountBalance([], "0", "0")

  // ---------------------------------------------------------------------------
  // field access
  // ---------------------------------------------------------------------------

  predicate HasStr(d: map<string, Json>, key: string) { key in d && d[key].JStr? }

  predicate StrOrAbsent(d: map<string, Json>, key: string) { key !in d || d[key].JStr? }

  /** The string under `key`, or `default` when the key is absent. */
  function StrField(d: map<string, Json>, key: string, default: string): string
  {
    if key in d && d[key].JStr? then d[key].s else default
  }

  predicate AllHaveStr(d: map<string, Json>, keys: seq<string>)
  {
    forall k :: 0 <= k < |keys| ==> HasStr(d, keys[k])
  }

  predicate AllStrOrAbsent(d: map<string, Json>, keys: seq<string>)
  {
    forall k :: 0 <= k < |keys| ==> StrOrAbsent(d, keys[k])
  }

  // ---------------------------------------------------------------------------
  // TokenResponse
  // ---------------------------------------------------------------------------

  function ParseTokenResponse(d: map<string, Json>): Result<TokenResponse, ValidationError>
  {
    if HasStr(d, "access_token") && StrOrAbsent(d, "token_type")
       && "expires_in" in d && PyInt(d["expires_in"]).Some?
    then Ok(TokenResponse(StrField(d, "access_token", ""), StrField(d, "token_type", "Bearer"), PyInt(d["expires_in"]).value))
    else Err(ValidationError("TokenResponse"))
  }

  /** `token_type` defaults to "Bearer"; `access_token` and an integer `expires_in` are required. */
  lemma TokenResponseDefaults(d: map<string, Json>)
    ensures ParseTokenResponse(d).Ok? <==>
      HasStr(d, "access_token") && StrOrAbsent(d, "token_type") && "expires_in" in d && PyInt(d["expires_in"]).Some?
    ensures ParseTokenResponse(d).Ok? && "token_type" !in d ==> ParseTokenResponse(d).value.token_type == "Bearer"
    ensures ParseTokenResponse(d).Ok? && d["expires_in"].JInt? ==> ParseTokenResponse(d).value.expires_in == d["expires_in"].i
  {
  }

  // ---------------------------------------------------------------------------
  // StockPrice
  // ---------------------------------------------------------------------------

  const StockPriceRequired := ["stck_prpr", "stck_oprc", "stck_hgpr", "stck_lwpr", "acml_vol", "prdy_ctrt"]
  const StockPriceOptional := ["prdy_vrss", "prdy_vrss_sign", "stck_mxpr", "stck_llam"]

  function ParseStockPrice(d: map<string, Json>): Result<StockPrice, ValidationError>
  {
    if AllHaveStr(d, StockPriceRequired) && AllStrOrAbsent(d, StockPriceOptional) then
      Ok(StockPrice(
        StrField(d, "stck_prpr", ""), StrField(d, "stck_oprc", ""), StrField(d, "stck_hgpr", ""), StrField(d, "stck_lwpr", ""),
        StrField(d, "acml_vol", ""), StrField(d, "prdy_ctrt", ""),
        StrField(d, "prdy_vrss", ""), StrField(d, "prdy_vrss_sign", ""),
        StrField(d, "stck_mxpr", ""), StrField(d, "stck_llam", "")))
    else Err(ValidationError("StockPrice"))
  }

  function StockPriceJson(p: StockPrice): map<string, Json>
  {
    map[
      "stck_prpr" := JStr(p.stck_prpr), "stck_oprc" := JStr(p.stck_oprc),
      "stck_hgpr" := JStr(p.stck_hgpr), "stck_lwpr" := JStr(p.stck_lwpr),
      "acml_vol" := JStr(p.acml_vol), "prdy_ctrt" := JStr(p.prdy_ctrt),
      "prdy_vrss" := JStr(p.prdy_vrss), "prdy_vrss_sign" := JStr(p.prdy_vrss_sign),
      "stck_mxpr" := JStr(p.stck_mxpr), "stck_llam" := JStr(p.stck_llam)]
  }

  /** The four optional quote fields default to "" when the API omits them. */
  lemma StockPriceOptionalDefaults(d: map<string, Json>)
    requires AllHaveStr(d, StockPriceRequired)
    requires "prdy_vrss" !in d && "prdy_vrss_sign" !in d && "stck_mxpr" !in d && "stck_llam" !in d
    ensures ParseStockPrice(d).Ok?
    ensures var p := ParseStockPrice(d).value;
      p.prdy_vrss == "" && p.prdy_vrss_sign == "" && p.stck_mxpr == "" && p.stck_llam == ""
    ensures ParseStockPrice(d).value.stck_prpr == StrField(d, "stck_prpr", "")
  {
    assert HasStr(d, StockPriceRequired[0]);
    assert AllStrOrAbsent(d, StockPriceOptional);
  }

  /** A quote missing one of its six required fields is rejected. */
  lemma StockPriceRequiresFields(d: map<string, Json>, k: nat)
    requires k < |StockPriceRequired| && StockPriceRequired[k] !in d
    ensures ParseStockPrice(d).Err?
  {
  }

  lemma StockPriceRoundTrip(p: StockPrice)
    ensures ParseStockPrice(StockPriceJson(p)) == Ok(p)
  {
  }

  // ---------------------------------------------------------------------------
  // DailyPrice
  // ---------------------------------------------------------------------------

  const DailyPriceRequired := ["stck_bsop_date", "stck_oprc", "stck_hgpr", "stck_lwpr", "stck_clpr", "acml_vol"]

  function ParseDailyPrice(d: map<string, Json>): Result<DailyPrice, ValidationError>
  {
    if AllHaveStr(d, DailyPriceRequired) && StrOrAbsent(d, "prdy_ctrt") then
      Ok(DailyPrice(
        StrField(d, "stck_bsop_date", ""), StrField(d, "stck_oprc", ""), StrField(d, "stck_hgpr", ""), StrField(d, "stck_lwpr", ""),
        StrField(d, "stck_clpr", ""), StrField(d, "acml_vol", ""), StrField(d, "prdy_ctrt", "")))
    else Err(ValidationError("DailyPrice"))
  }

  function DailyPriceJson(p: DailyPrice): map<string, Json>
  {
    map[
      "stck_bsop_date" := JStr(p.stck_bsop_date), "stck_oprc" := JStr(p.stck_oprc),
      "stck_hgpr" := JStr(p.stck_hgpr), "stck_lwpr" := JStr(p.stck_lwpr),
      "stck_clpr" := JStr(p.stck_clpr), "acml_vol" := JStr(p.acml_vol),
      "prdy_ctrt" := JStr(p.prdy_ctrt)]
  }

  /** `prdy_ctrt` defaults to "" while the other six fields are required. */
  lemma DailyPriceDefaults(d: map<string, Json>)
    ensures ParseDailyPrice(d).Ok? <==> AllHaveStr(d, DailyPriceRequired) && StrOrAbsent(d, "prdy_ctrt")
    ensures ParseDailyPrice(d).Ok? && "prdy_ctrt" !in d ==> ParseDailyPrice(d).value.prdy_ctrt == ""
  {
  }

  lemma DailyPriceRoundTrip(p: DailyPrice)
    ensures ParseDailyPrice(DailyPriceJson(p)) == Ok(p)
  {
  }

  // ---------------------------------------------------------------------------
  // OrderOutput
  // ---------------------------------------------------------------------------

  function ParseOrderOutput(d: map<string, Json>): Result<OrderOutput, ValidationError>
  {
    if StrOrAbsent(d, "KRX_FWDG_ORD_ORGNO") && StrOrAbsent(d, "ODNO") && StrOrAbsent(d, "ORD_TMD") then
      Ok(OrderOutput(StrField(d, "KRX_FWDG_ORD_ORGNO", ""), StrField(d, "ODNO", ""), StrField(d, "ORD_TMD", "")))
    else Err(ValidationError("OrderOutput"))
  }

  /** Every order-output field defaults to "", so an empty object is a valid, empty output. */
  lemma OrderOutputDefaults()
    ensures ParseOrderOutput(map[]) == Ok(OrderOutput("", "", ""))
  {
  }

  // ---------------------------------------------------------------------------
  // BalanceItem
  // ---------------------------------------------------------------------------

  const BalanceItemRequired := ["pdno", "prdt_name", "hldg_qty", "pchs_avg_pric", "prpr", "evlu_pfls_amt", "evlu_pfls_rt"]

  function ParseBalanceItem(d: map<string, Json>): Result<BalanceItem, ValidationError>
  {
    if AllHaveStr(d, BalanceItemRequired) then
      Ok(BalanceItem(
        StrField(d, "pdno", ""), StrField(d, "prdt_name", ""), StrField(d, "hldg_qty", ""), StrField(d, "pchs_avg_pric", ""),
        StrField(d, "prpr", ""), StrField(d, "evlu_pfls_amt", ""), StrField(d, "evlu_pfls_rt", "")))
    else Err(ValidationError("BalanceItem"))
  }

  function BalanceItemJson(b: BalanceItem): map<string, Json>
  {
    map[
      "pdno" := JStr(b.pdno), "prdt_name" := JStr(b.prdt_name), "hldg_qty" := JStr(b.hldg_qty),
      "pchs_avg_pric" := JStr(b.pchs_avg_pric), "prpr" := JStr(b.prpr),
      "evlu_pfls_amt" := JStr(b.evlu_pfls_amt), "evlu_pfls_rt" := JStr(b.evlu_pfls_rt)]
  }

  lemma BalanceItemRoundTrip(b: BalanceItem)
    ensures ParseBalanceItem(BalanceItemJson(b)) == Ok(b)
  {
  }

  /** A non-string quantity (a JSON number) is rejected rather than converted. */
  lemma BalanceItemKeepsStrings(d: map<string, Json>)
    requires "hldg_qty" in d && d["hldg_qty"].JInt?
    ensures ParseBalanceItem(d).Err?
  {
    assert !HasStr(d, BalanceItemRequired[2]);
  }
}
