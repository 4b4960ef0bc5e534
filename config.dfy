/**
 * The application configuration: the trading mode picks the paper or live credentials
 * and endpoints, `Validate` collects every failing check before reporting, and the
 * watchlist comes from its file, else the environment, else five fixed codes.
 *
 * The environment is a map from variable names to values; the watchlist file is an
 * input (`None` when it does not exist, `Some(None)` when it cannot be read or decoded,
 * `Some(Some(j))` when it decodes to `j`), and the file the loader writes back is an
 * output.
 */
module AppConfig {
  import opened Wrappers
  import opened JsonValue
  import Text

  const PaperBaseUrl := "https://openapivts.koreainvestment.com:29443"
  const PaperWsUrl := "ws://ops.koreainvestment.com:31000"
  const LiveBaseUrl := "https://openapi.koreainvestment.com:9443"
  const LiveWsUrl := "ws://ops.koreainvestment.com:21000"
  const DefaultModel := "gpt-5-mini"
  const DefaultWatchlist: seq<string> := ["005930", "000660", "035420", "035720", "051910"]

  /** The fields `__post_init__` derives from the mode. */
  datatype Given = Given(tradingMode: string, openaiApiKey: string, watchlist: seq<string>,
                         dataCollectorInterval: int, dataAnalystInterval: int, tradeExecutorInterval: int,
                         riskManagerInterval: int, apiPort: int, logLevel: string, acntPrdtCd: string)

  datatype Derived = Derived(appKey: string, appSecret: string, accountNo: string,
                             baseUrl: string, wsUrl: string, openaiModel: string)

  /** `account_full[:8] if len(account_full) >= 8 else account_full`. */
  function Account(full: string): (a: string)
    ensures |a| == if |full| < 8 then |full| else 8
    ensures a == full[..|a|]
    ensures |full| <= 8 ==> a == full
  {
    if |full| >= 8 then full[..8] else full
  }

  /** The three outcomes of comparing the lower-cased mode. */
  datatype ModeKind = PaperMode | LiveMode | UnknownMode

  function ModeOf(lowered: string): (k: ModeKind)
    ensures k == PaperMode <==> lowered == "paper"
    ensures k == LiveMode <==> lowered == "live"
  {
    if lowered == "paper" then PaperMode else if lowered == "live" then LiveMode else UnknownMode
  }

  /** The mode selection of `__post_init__`; `Err` carries the `ValueError` message. */
  function SelectMode(mode: string, env: map<string, string>): (r: Result<Derived, string>)
    ensures r.Ok? <==> Text.Lower(mode) == "paper" || Text.Lower(mode) == "live"
    ensures r.Ok? && Text.Lower(mode) == "paper" ==> r.value.baseUrl == PaperBaseUrl && r.value.wsUrl == PaperWsUrl
    ensures r.Ok? && Text.Lower(mode) == "live" ==> r.value.baseUrl == LiveBaseUrl && r.value.wsUrl == LiveWsUrl
    ensures r.Err? ==> r.error == "Invalid TRADING_MODE: " + mode + ". Must be 'paper' or 'live'."
  {
    match ModeOf(Text.Lower(mode))
    case PaperMode =>
      Ok(Derived(GetOr(env, "KIS_PAPER_APP_KEY", ""), GetOr(env, "KIS_PAPER_APP_SECRET", ""),
                 Account(GetOr(env, "KIS_PAPER_ACCOUNT_NO", "")), PaperBaseUrl, PaperWsUrl,
                 GetOr(env, "OPENAI_MODEL_PAPER", DefaultModel)))
    case LiveMode =>
      Ok(Derived(GetOr(env, "KIS_LIVE_APP_KEY", ""), GetOr(env, "KIS_LIVE_APP_SECRET", ""),
                 Account(GetOr(env, "KIS_LIVE_ACCOUNT_NO", "")), LiveBaseUrl, LiveWsUrl,
                 GetOr(env, "OPENAI_MODEL_LIVE", DefaultModel)))
    case UnknownMode => Err("Invalid TRADING_MODE: " + mode + ". Must be 'paper' or 'live'.")
  }

  /** Spellings that lower-case alike select the same settings. */
  lemma ModeIgnoresCase(m1: string, m2: string, env: map<string, string>)
    requires Text.Lower(m1) == Text.Lower(m2)
    ensures SelectMode(m1, env).Ok? <==> SelectMode(m2, env).Ok?
    ensures SelectMode(m1, env).Ok? ==> SelectMode(m1, env).value == SelectMode(m2, env).value
  {
  }

  /** An upper-case mode is accepted by construction. */
  lemma UpperCaseModeSelects(env: map<string, string>)
    ensures SelectMode("PAPER", env).Ok? && SelectMode("PAPER", env).value.baseUrl == PaperBaseUrl
    ensures SelectMode("Live", env).Ok? && SelectMode("Live", env).value.baseUrl == LiveBaseUrl
    ensures SelectMode("demo", env).Err?
  {
    assert Text.Lower("PAPER") == "paper";
    assert Text.Lower("Live") == "live";
    assert Text.Lower("demo") == "demo";
  }

  /** The configuration's field values. */
  datatype ConfigValue = ConfigValue(
    tradingMode: string, kisAppKey: string, kisAppSecret: string, kisAccountNo: string,
    openaiApiKey: string, openaiModel: string, watchlist: seq<string>,
    dataCollectorInterval: int, dataAnalystInterval: int,
    tradeExecutorInterval: int, riskManagerInterval: int)

  /** One check of `validate`: whether it fails and the message it then records. */
  datatype Check = Check(fails: bool, message: string)

  /** The credential variables are named for paper exactly when the mode is "paper". */
  function Kind(mode: string): string
  {
    if mode == "paper" then "PAPER" else "LIVE"
  }

  /** Check `i` of `validate`, in the order it runs them. */
  function CheckAt(v: ConfigValue, i: nat): Check
    requires i < 11
  {
    if i == 0 then Check(v.tradingMode != "paper" && v.tradingMode != "live", "Invalid trading_mode: " + v.tradingMode)
    else if i == 1 then Check(v.kisAppKey == "", "Missing KIS_" + Kind(v.tradingMode) + "_APP_KEY")
    else if i == 2 then Check(v.kisAppSecret == "", "Missing KIS_" + Kind(v.tradingMode) + "_APP_SECRET")
    else if i == 3 then Check(v.kisAccountNo == "", "Missing KIS_" + Kind(v.tradingMode) + "_ACCOUNT_NO")
    else if i == 4 then Check(v.openaiApiKey == "", "Missing OPENAI_API_KEY")
    else if i == 5 then Check(v.openaiModel == "", "Missing OPENAI_MODEL_" + Kind(v.tradingMode))
    else if i == 6 then Check(v.watchlist == [], "Watchlist is empty")
    else if i == 7 then Check(v.dataCollectorInterval <= 0, "data_collector_interval must be positive")
    else if i == 8 then Check(v.dataAnalystInterval <= 0, "data_analyst_interval must be positive")
    else if i == 9 then Check(v.tradeExecutorInterval <= 0, "trade_executor_interval must be positive")
    else Check(v.riskManagerInterval <= 0, "risk_manager_interval must be positive")
  }

  /** The checks of `validate`, in order. */
  function Checks(v: ConfigValue): (cs: seq<Check>)
    ensures |cs| == 11
    ensures forall i :: 0 <= i < 11 ==> cs[i] == CheckAt(v, i)
  {
    seq(11, i requires 0 <= i < 11 => CheckAt(v, i))
  }

  /** The messages of the failing checks, in order. */
  function Failing(cs: seq<Check>): (errors: seq<string>)
    ensures |errors| <= |cs|
  {
    if cs == [] then []
    else Failing(cs[..|cs| - 1]) + (if cs[|cs| - 1].fails then [cs[|cs| - 1].message] else [])
  }

  /** The messages of the failing checks among the first `k`. */
  function FailingUpTo(v: ConfigValue, k: nat): seq<string>
    requires k <= 11
  {
    if k == 0 then [] else FailingUpTo(v, k - 1) + (if CheckAt(v, k - 1).fails then [CheckAt(v, k - 1).message] else [])
  }

  lemma {:induction false} FailingUpToPrefix(v: ConfigValue, k: nat)
    requires k <= 11
    ensures FailingUpTo(v, k) == Failing(Checks(v)[..k])
  {
    if k > 0 {
      FailingUpToPrefix(v, k - 1);
      assert Checks(v)[..k][..k - 1] == Checks(v)[..k - 1];
    }
  }

  /** A message is reported exactly when some check with that message fails. */
  lemma {:induction false} FailingMembers(cs: seq<Check>, e: string)
    ensures e in Failing(cs) <==> exists i :: 0 <= i < |cs| && cs[i].fails && cs[i].message == e
  {
    if cs != [] {
      FailingMembers(cs[..|cs| - 1], e);
      var last := cs[|cs| - 1];
      if exists i :: 0 <= i < |cs| && cs[i].fails && cs[i].message == e {
        var i :| 0 <= i < |cs| && cs[i].fails && cs[i].message == e;
        if i < |cs| - 1 {
          assert cs[..|cs| - 1][i] == cs[i];
        }
      }
    }
  }

  /** No error is reported exactly when no check fails. */
  lemma {:induction false} FailingEmpty(cs: seq<Check>)
    ensures Failing(cs) == [] <==> forall i :: 0 <= i < |cs| ==> !cs[i].fails
  {
    if cs != [] {
      FailingEmpty(cs[..|cs| - 1]);
      assert forall i :: 0 <= i < |cs| - 1 ==> cs[..|cs| - 1][i] == cs[i];
    }
  }

  /** The configuration is accepted exactly when every requirement holds. */
  lemma ValidAccepts(v: ConfigValue)
    ensures Failing(Checks(v)) == [] <==>
      (v.tradingMode == "paper" || v.tradingMode == "live")
      && v.kisAppKey != "" && v.kisAppSecret != "" && v.kisAccountNo != ""
      && v.openaiApiKey != "" && v.openaiModel != "" && v.watchlist != []
      && v.dataCollectorInterval > 0 && v.dataAnalystInterval > 0
      && v.tradeExecutorInterval > 0 && v.riskManagerInterval > 0
  {
    var cs := Checks(v);
    FailingEmpty(cs);
    if Failing(cs) == [] {
      assert !cs[0].fails && !cs[1].fails && !cs[2].fails && !cs[3].fails && !cs[4].fails && !cs[5].fails;
      assert !cs[6].fails && !cs[7].fails && !cs[8].fails && !cs[9].fails && !cs[10].fails;
    } else {
      var i :| 0 <= i < |cs| && cs[i].fails;
      assert cs[i] == CheckAt(v, i);
    }
  }

  /** A non-positive interval and an empty watchlist are each reported with their own message. */
  lemma IntervalsReported(v: ConfigValue)
    ensures v.dataCollectorInterval <= 0 ==> "data_collector_interval must be positive" in Failing(Checks(v))
    ensures v.dataAnalystInterval <= 0 ==> "data_analyst_interval must be positive" in Failing(Checks(v))
    ensures v.tradeExecutorInterval <= 0 ==> "trade_executor_interval must be positive" in Failing(Checks(v))
    ensures v.riskManagerInterval <= 0 ==> "risk_manager_interval must be positive" in Failing(Checks(v))
    ensures v.watchlist == [] ==> "Watchlist is empty" in Failing(Checks(v))
  {
    var cs := Checks(v);
    FailingMembers(cs, "data_collector_interval must be positive");
    FailingMembers(cs, "data_analyst_interval must be positive");
    FailingMembers(cs, "trade_executor_interval must be positive");
    FailingMembers(cs, "risk_manager_interval must be positive");
    FailingMembers(cs, "Watchlist is empty");
    assert cs[6].message == "Watchlist is empty" && cs[7].message == "data_collector_interval must be positive";
    assert cs[8].message == "data_analyst_interval must be positive" && cs[9].message == "trade_executor_interval must be positive";
    assert cs[10].message == "risk_manager_interval must be positive";
  }

  /** Validation compares the mode as written: "PAPER" is accepted by construction but rejected here. */
  lemma ValidationIsCaseSensitive(v: ConfigValue, env: map<string, string>)
    requires v.tradingMode == "PAPER"
    ensures SelectMode(v.tradingMode, env).Ok?
    ensures "Invalid trading_mode: PAPER" in Failing(Checks(v))
  {
    UpperCaseModeSelects(env);
    FailingMembers(Checks(v), "Invalid trading_mode: PAPER");
    assert Checks(v)[0].fails;
  }

  /** The message of the single `ValueError` that lists every failure. */
  function ValidationMessage(errors: seq<string>): string
  {
    "Configuration validation failed:\n" + Text.Join(seq(|errors|, i requires 0 <= i < |errors| => "  - " + errors[i]), "\n")
  }

  /** One check of `validate`: `if fails: errors.append(message)`. */
  method AppendIf(errors: seq<string>, fails: bool, message: string) returns (r: seq<string>)
    ensures r == errors + (if fails then [message] else [])
  {
    r := errors;
    if fails {
      r := r + [message];
    }
  }

  class Config {
    var tradingMode: string
    var kisAppKey: string
    var kisAppSecret: string
    var kisAccountNo: string
    var kisAcntPrdtCd: string
    var kisBaseUrl: string
    var kisWsUrl: string
    var openaiApiKey: string
    var openaiModel: string
    var watchlist: seq<string>
    var dataCollectorInterval: int
    var dataAnalystInterval: int
    var tradeExecutorInterval: int
    var riskManagerInterval: int
    var apiPort: int
    var logLevel: string

    function Value(): ConfigValue
      reads this
    {
      ConfigValue(tradingMode, kisAppKey, kisAppSecret, kisAccountNo, openaiApiKey, openaiModel, watchlist,
                  dataCollectorInterval, dataAnalystInterval, tradeExecutorInterval, riskManagerInterval)
    }

    function DerivedFields(): Derived
      reads this
    {
      Derived(kisAppKey, kisAppSecret, kisAccountNo, kisBaseUrl, kisWsUrl, openaiModel)
    }

    /** The fields `__post_init__` leaves alone. */
    function GivenFields(): Given
      reads this
    {
      Given(tradingMode, openaiApiKey, watchlist, dataCollectorInterval, dataAnalystInterval,
            tradeExecutorInterval, riskManagerInterval, apiPort, logLevel, kisAcntPrdtCd)
    }

    /** The dataclass initialiser: the fields that are not derived, with derived ones still blank. */
    constructor(tradingMode: string, openaiApiKey: string, watchlist: seq<string>,
                dataCollectorInterval: int, dataAnalystInterval: int,
                tradeExecutorInterval: int, riskManagerInterval: int, apiPort: int, logLevel: string)
      ensures this.tradingMode == tradingMode && this.openaiApiKey == openaiApiKey && this.watchlist == watchlist
      ensures this.dataCollectorInterval == dataCollectorInterval && this.dataAnalystInterval == dataAnalystInterval
      ensures this.tradeExecutorInterval == tradeExecutorInterval && this.riskManagerInterval == riskManagerInterval
      ensures this.apiPort == apiPort && this.logLevel == logLevel && kisAcntPrdtCd == "01"
      ensures DerivedFields() == Derived("", "", "", "", "", "")
    {
      this.tradingMode := tradingMode;
      this.openaiApiKey := openaiApiKey;
      this.watchlist := watchlist;
      this.dataCollectorInterval := dataCollectorInterval;
      this.dataAnalystInterval := dataAnalystInterval;
      this.tradeExecutorInterval := tradeExecutorInterval;
      this.riskManagerInterval := riskManagerInterval;
      this.apiPort := apiPort;
      this.logLevel := logLevel;
      kisAcntPrdtCd := "01";
      kisAppKey, kisAppSecret, kisAccountNo := "", "", "";
      kisBaseUrl, kisWsUrl, openaiModel := "", "", "";
    }

    /** `__post_init__`: fills in the derived fields for the mode, or reports the `ValueError`. */
    method PostInit(env: map<string, string>) returns (err: Option<string>)
      modifies this`kisAppKey, this`kisAppSecret, this`kisAccountNo, this`kisBaseUrl, this`kisWsUrl, this`openaiModel
      ensures SelectMode(tradingMode, env).Ok? ==> err == None && DerivedFields() == SelectMode(tradingMode, env).value
      ensures SelectMode(tradingMode, env).Err? ==> err == Some(SelectMode(tradingMode, env).error) && DerivedFields() == old(DerivedFields())
      ensures GivenFields() == old(GivenFields())
    {
      ghost var selected := SelectMode(tradingMode, env);
      var mode := Text.Lower(tradingMode);
      match ModeOf(mode)
      case PaperMode => {
        var accountFull := GetOr(env, "KIS_PAPER_ACCOUNT_NO", "");
        SetDerived(Derived(GetOr(env, "KIS_PAPER_APP_KEY", ""), GetOr(env, "KIS_PAPER_APP_SECRET", ""), Account(accountFull),
                           PaperBaseUrl, PaperWsUrl, GetOr(env, "OPENAI_MODEL_PAPER", DefaultModel)));
        err := None;
      }
      case LiveMode => {
        var accountFull := GetOr(env, "KIS_LIVE_ACCOUNT_NO", "");
        SetDerived(Derived(GetOr(env, "KIS_LIVE_APP_KEY", ""), GetOr(env, "KIS_LIVE_APP_SECRET", ""), Account(accountFull),
                           LiveBaseUrl, LiveWsUrl, GetOr(env, "OPENAI_MODEL_LIVE", DefaultModel)));
        err := None;
      }
      case UnknownMode => {
        err := Some("Invalid TRADING_MODE: " + tradingMode + ". Must be 'paper' or 'live'.");
      }
    }

    /** The six settings the mode decides, set together. */
    method SetDerived(d: Derived)
      modifies this`kisAppKey, this`kisAppSecret, this`kisAccountNo, this`kisBaseUrl, this`kisWsUrl, this`openaiModel
      ensures DerivedFields() == d
    {
      kisAppKey, kisAppSecret, kisAccountNo := d.appKey, d.appSecret, d.accountNo;
      kisBaseUrl, kisWsUrl, openaiModel := d.baseUrl, d.wsUrl, d.openaiModel;
    }

    /** The first six checks of `validate`: the mode, the KIS credentials and the OpenAI settings. */
    method CredentialErrors() returns (errors: seq<string>)
      ensures errors == FailingUpTo(Value(), 6)
    {
      var kind := if tradingMode == "paper" then "PAPER" else "LIVE";
      ghost var v := Value();
      ghost var done: nat := 0;
      errors := [];
      if tradingMode != "paper" && tradingMode != "live" {
        errors := errors + ["Invalid trading_mode: " + tradingMode];
      }
      done := done + 1;
      assert errors == FailingUpTo(v, done);
      if kisAppKey == "" {
        errors := errors + ["Missing KIS_" + kind + "_APP_KEY"];
      }
      done := done + 1;
      assert errors == FailingUpTo(v, done);
      if kisAppSecret == "" {
        errors := errors + ["Missing KIS_" + kind + "_APP_SECRET"];
      }
      done := done + 1;
      assert errors == FailingUpTo(v, done);
      if kisAccountNo == "" {
        errors := errors + ["Missing KIS_" + kind + "_ACCOUNT_NO"];
      }
      done := done + 1;
      assert errors == FailingUpTo(v, done);
      if openaiApiKey == "" {
        errors := errors + ["Missing OPENAI_API_KEY"];
      }
      done := done + 1;
      assert errors == FailingUpTo(v, done);
      if openaiModel == "" {
        errors := errors + ["Missing OPENAI_MODEL_" + kind];
      }
      done := done + 1;
      assert errors == FailingUpTo(v, done);
    }

    /** The last five checks of `validate`: the watchlist and the four intervals. */
    method LimitErrors(before: seq<string>) returns (errors: seq<string>)
      requires before == FailingUpTo(Value(), 6)
      ensures errors == FailingUpTo(Value(), 11)
    {
      ghost var v := Value();
      ghost var done: nat := 6;
      errors := AppendIf(before, watchlist == [], "Watchlist is empty");
      done := done + 1;
      assert errors == FailingUpTo(v, done);
      errors := AppendIf(errors, dataCollectorInterval <= 0, "data_collector_interval must be positive");
      done := done + 1;
      assert errors == FailingUpTo(v, done);
      errors := AppendIf(errors, dataAnalystInterval <= 0, "data_analyst_interval must be positive");
      done := done + 1;
      assert errors == FailingUpTo(v, done);
      errors := AppendIf(errors, tradeExecutorInterval <= 0, "trade_executor_interval must be positive");
      done := done + 1;
      assert errors == FailingUpTo(v, done);
      errors := AppendIf(errors, riskManagerInterval <= 0, "risk_manager_interval must be positive");
      done := done + 1;
      assert errors == FailingUpTo(v, done);
    }

    /** `validate`: runs every check, growing the error list, and fails once if it is not empty. */
    method Validate() returns (err: Option<string>)
      ensures err == None <==> Failing(Checks(Value())) == []
      ensures err != None ==> err == Some(ValidationMessage(Failing(Checks(Value()))))
    {
      var errors := CredentialErrors();
      errors := LimitErrors(errors);
      ghost var v := Value();
      ghost var done: nat := 11;
      FailingUpToPrefix(v, done);
      assert Checks(v)[..done] == Checks(v);
      if errors != [] {
        err := Some(ValidationMessage(errors));
      } else {
        err := None;
      }
    }
  }

  /** `_load_watchlist_file`: the file's list, when it decodes to a list of strings. */
  function LoadWatchlistFile(file: Option<Option<Json>>): (r: Option<seq<string>>)
    ensures r.Some? <==> file.Some? && file.value.Some? && IsStringList(file.value.value)
    ensures r.Some? ==> (|r.value| == |file.value.value.items|
      && forall k :: 0 <= k < |r.value| ==> file.value.value.items[k] == JStr(r.value[k]))
  {
    if file.Some? && file.value.Some? && IsStringList(file.value.value) then Some(Strings(file.value.value))
    else None
  }

  /** A code as the environment parser keeps it: non-empty, comma-free and unpadded. */
  predicate CleanCode(c: string)
  {
    c != "" && ',' !in c && !Text.IsSpace(c[0]) && !Text.IsSpace(c[|c| - 1])
  }

  /** `[code.strip() for code in s.split(",") if code.strip()]`. */
  function ParseCodes(s: string): (codes: seq<string>)
    ensures forall k :: 0 <= k < |codes| ==> CleanCode(codes[k])
  {
    StrippedNonEmpty(Text.Split(s, ','))
  }

  function StrippedNonEmpty(parts: seq<string>): (codes: seq<string>)
    requires forall i :: 0 <= i < |parts| ==> ',' !in parts[i]
    ensures |codes| <= |parts|
    ensures forall k :: 0 <= k < |codes| ==> CleanCode(codes[k])
  {
    if parts == [] then []
    else
      var c := Text.Strip(parts[0]);
      StripClean(parts[0]);
      (if c != "" then [c] else []) + StrippedNonEmpty(parts[1..])
  }

  /** A comma-free piece strips to a clean code or to nothing. */
  lemma StripClean(part: string)
    requires ',' !in part
    ensures Text.Strip(part) == "" || CleanCode(Text.Strip(part))
  {
    StripInside(part);
  }

  lemma StripInside(s: string)
    ensures forall ch :: ch in Text.Strip(s) ==> ch in s
  {
    var t := Text.TrimStart(s);
    var r := Text.TrimEnd(t);
    assert r == Text.Strip(s);
    var k := |s| - |t|;
    assert r == s[k..k + |r|] by {
      assert t == s[k..] && r == t[..|r|];
    }
    forall ch | ch in r
      ensures ch in s
    {
      var i :| 0 <= i < |r| && r[i] == ch;
      assert s[k + i] == ch;
    }
  }

  /** Codes that are non-empty, comma-free and unpadded survive a round trip through the variable. */
  lemma {:induction false} ParseCodesOfJoin(codes: seq<string>)
    requires |codes| >= 1
    requires forall k :: 0 <= k < |codes| ==> CleanCode(codes[k])
    ensures ParseCodes(Text.Join(codes, ",")) == codes
  {
    Text.JoinThenSplit(codes, ',');
    CleanPartsKept(codes);
  }

  lemma {:induction false} CleanPartsKept(codes: seq<string>)
    requires forall k :: 0 <= k < |codes| ==> CleanCode(codes[k])
    ensures (forall i :: 0 <= i < |codes| ==> ',' !in codes[i]) && StrippedNonEmpty(codes) == codes
    decreases |codes|
  {
    if codes != [] {
      Text.StripUnpadded(codes[0]);
      CleanPartsKept(codes[1..]);
    }
  }

  /** Entries that strip to nothing are dropped: a variable of commas and blanks yields no codes. */
  lemma BlankEntriesDropped()
    ensures ParseCodes(" , ,") == []
  {
    var parts := [" ", " ", ""];
    Text.JoinThenSplit(parts, ',');
    assert Text.Join(parts, ",") == " , ,";
  }

  /** The outcome of `_parse_watchlist`: the list, and what it writes back to the file. */
  datatype WatchlistLoad = WatchlistLoad(watchlist: seq<string>, saved: Option<seq<string>>)

  /** `_parse_watchlist`: the file first, then a non-empty AGENT_WATCHLIST, then the defaults; the latter two are saved. */
  function ParseWatchlist(file: Option<Option<Json>>, env: map<string, string>): (r: WatchlistLoad)
    ensures LoadWatchlistFile(file).Some? ==> r == WatchlistLoad(LoadWatchlistFile(file).value, None)
    ensures LoadWatchlistFile(file).None? ==> r.saved == Some(r.watchlist)
    ensures LoadWatchlistFile(file).None? && GetOr(env, "AGENT_WATCHLIST", "") != "" ==>
      r.watchlist == ParseCodes(env["AGENT_WATCHLIST"])
    ensures LoadWatchlistFile(file).None? && GetOr(env, "AGENT_WATCHLIST", "") == "" ==> r.watchlist == DefaultWatchlist
  {
    var fromFile := LoadWatchlistFile(file);
    if fromFile.Some? then WatchlistLoad(fromFile.value, None)
    else
      var s := GetOr(env, "AGENT_WATCHLIST", "");
      var w := if s != "" then ParseCodes(s) else DefaultWatchlist;
      WatchlistLoad(w, Some(w))
  }

  /** A saved list is read back unchanged the next time, so the file becomes the one source. */
  lemma SavedListIsReloaded(file: Option<Option<Json>>, env: map<string, string>, env2: map<string, string>)
    ensures var w := ParseWatchlist(file, env).watchlist;
      ParseWatchlist(Some(Some(JArr(seq(|w|, k requires 0 <= k < |w| => JStr(w[k]))))), env2) == WatchlistLoad(w, None)
  {
    var w := ParseWatchlist(file, env).watchlist;
    var j := JArr(seq(|w|, k requires 0 <= k < |w| => JStr(w[k])));
    assert IsStringList(j);
    assert Strings(j) == w;
  }

  /** `Config()`: the field defaults from the environment, then `__post_init__`. */
  method Load(env: map<string, string>, file: Option<Option<Json>>)
    returns (r: Result<Config, string>, saved: Option<seq<string>>)
    ensures saved == ParseWatchlist(file, env).saved
    ensures r.Ok? <==> SelectMode(GetOr(env, "TRADING_MODE", "paper"), env).Ok? && IntervalsParse(env)
    ensures r.Ok? ==> (fresh(r.value)
      && r.value.tradingMode == GetOr(env, "TRADING_MODE", "paper")
      && r.value.DerivedFields() == SelectMode(GetOr(env, "TRADING_MODE", "paper"), env).value
      && r.value.watchlist == ParseWatchlist(file, env).watchlist
      && r.value.openaiApiKey == GetOr(env, "OPENAI_API_KEY", "")
      && Some(r.value.dataCollectorInterval) == Text.ParseInt(GetOr(env, "DATA_COLLECTOR_INTERVAL", "60"))
      && Some(r.value.dataAnalystInterval) == Text.ParseInt(GetOr(env, "DATA_ANALYST_INTERVAL", "120"))
      && Some(r.value.tradeExecutorInterval) == Text.ParseInt(GetOr(env, "TRADE_EXECUTOR_INTERVAL", "180"))
      && Some(r.value.riskManagerInterval) == Text.ParseInt(GetOr(env, "RISK_MANAGER_INTERVAL", "90"))
      && Some(r.value.apiPort) == Text.ParseInt(GetOr(env, "API_PORT", "8000"))
      && r.value.logLevel == GetOr(env, "LOG_LEVEL", "INFO"))
    ensures !IntervalsParse(env) ==> r == Err("invalid literal for int()")
    ensures IntervalsParse(env) && SelectMode(GetOr(env, "TRADING_MODE", "paper"), env).Err? ==>
      r == Err(SelectMode(GetOr(env, "TRADING_MODE", "paper"), env).error)
  {
    var mode := GetOr(env, "TRADING_MODE", "paper");
    var apiKey := GetOr(env, "OPENAI_API_KEY", "");
    var w := ParseWatchlist(file, env);
    saved := w.saved;
    var dc := Text.ParseInt(GetOr(env, "DATA_COLLECTOR_INTERVAL", "60"));
    var da := Text.ParseInt(GetOr(env, "DATA_ANALYST_INTERVAL", "120"));
    var te := Text.ParseInt(GetOr(env, "TRADE_EXECUTOR_INTERVAL", "180"));
    var rm := Text.ParseInt(GetOr(env, "RISK_MANAGER_INTERVAL", "90"));
    var port := Text.ParseInt(GetOr(env, "API_PORT", "8000"));
    if dc.None? || da.None? || te.None? || rm.None? || port.None? {
      r := Err("invalid literal for int()");
      return;
    }
    var c := new Config(mode, apiKey, w.watchlist, dc.value, da.value, te.value, rm.value, port.value,
                        GetOr(env, "LOG_LEVEL", "INFO"));
    var err := c.PostInit(env);
    if err.Some? {
      r := Err(err.value);
    } else {
      r := Ok(c);
    }
  }

  /** Every integer variable, or its default, reads as an integer. */
  predicate IntervalsParse(env: map<string, string>)
  {
    Text.ParseInt(GetOr(env, "DATA_COLLECTOR_INTERVAL", "60")).Some?
    && Text.ParseInt(GetOr(env, "DATA_ANALYST_INTERVAL", "120")).Some?
    && Text.ParseInt(GetOr(env, "TRADE_EXECUTOR_INTERVAL", "180")).Some?
    && Text.ParseInt(GetOr(env, "RISK_MANAGER_INTERVAL", "90")).Some?
    && Text.ParseInt(GetOr(env, "API_PORT", "8000")).Some?
  }
}
