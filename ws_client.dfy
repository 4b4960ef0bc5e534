/**
 * The KIS real-time price stream. A connection obtains an approval key (cached for the
 * life of the object), subscribes each watched code once with a JSON message, then turns
 * each pipe-delimited execution message "0|H0STCNT0|count|f0^f1^..." into a price tick.
 *
 * The socket is an input: a `Session` holds the approval-key reply, whether each send
 * succeeds, the text frames received and how the connection ended. `outbox` is the
 * sequence of messages written to the socket over the object's life.
 */
module WsClient {
  import opened Wrappers
  import opened JsonValue
  import Text
  import Client
  import Endpoints

  const PriceTrId := "H0STCNT0"

  // positions in the '^'-delimited payload
  const FStockCode := 0
  const FTime := 1
  const FPrice := 2
  const FSign := 3
  const FChange := 4
  const FChangeRate := 5
  const FOpen := 7
  const FHigh := 8
  const FLow := 9
  const FVolume := 13

  /** The dict handed to the price callback. */
  datatype PriceTick = PriceTick(
    stock_code: string, price: string, change_sign: string, change_amount: string,
    change_rate: string, open: string, high: string, low: string, volume: string)

  /** The tick a payload with at least fourteen fields describes. */
  function TickOf(fields: seq<string>): PriceTick
    requires |fields| > FVolume
  {
    PriceTick(fields[FStockCode], fields[FPrice], fields[FSign], fields[FChange], fields[FChangeRate],
      fields[FOpen], fields[FHigh], fields[FLow], fields[FVolume])
  }

  /**
   * `_parse_price_message`: a message of fewer than four '|' parts, an encrypted one, one
   * for another tr_id, or one whose payload has fourteen fields or fewer gives nothing.
   */
  function ParsePriceMessage(raw: string): (r: Option<PriceTick>)
    ensures r.Some? <==> (|Text.Split(raw, '|')| >= 4
      && Text.Split(raw, '|')[0] == "0" && Text.Split(raw, '|')[1] == PriceTrId
      && |Text.Split(Text.Split(raw, '|')[3], '^')| > FVolume)
    ensures r.Some? ==> r.value == TickOf(Text.Split(Text.Split(raw, '|')[3], '^'))
  {
    var parts := Text.Split(raw, '|');
    if |parts| < 4 then None
    else if parts[0] != "0" || parts[1] != PriceTrId then None
    else
      var fields := Text.Split(parts[3], '^');
      if |fields| <= FVolume then None
      else Some(TickOf(fields))
  }

  /** A frame whose flag is not "0" (an encrypted or control frame) is never a tick. */
  lemma OnlyPlainPriceFrames(flag: string, trId: string, rest: string)
    requires '|' !in flag && '|' !in trId
    requires flag != "0" || trId != PriceTrId
    ensures ParsePriceMessage(flag + "|" + trId + "|" + rest) == None
  {
    Text.SplitAfterPiece(flag, '|', trId + "|" + rest);
    assert flag + "|" + trId + "|" + rest == flag + ['|'] + (trId + "|" + rest);
    Text.SplitAfterPiece(trId, '|', rest);
    assert trId + "|" + rest == trId + ['|'] + rest;
  }

  /** The frame the server sends for one execution: flag, tr_id, record count and payload. */
  function PriceFrame(count: string, fields: seq<string>): string
  {
    Text.Join(["0", PriceTrId, count, Text.Join(fields, "^")], "|")
  }

  lemma {:induction false} PriceFrameSplits(count: string, fields: seq<string>)
    requires '|' !in count
    requires forall i :: 0 <= i < |fields| ==> '|' !in fields[i] && '^' !in fields[i]
    ensures Text.Split(PriceFrame(count, fields), '|') == ["0", PriceTrId, count, Text.Join(fields, "^")]
    ensures Text.Split(Text.Join(fields, "^"), '^') == fields || fields == []
  {
    Text.JoinExcludes(fields, "^", '|');
    var parts := ["0", PriceTrId, count, Text.Join(fields, "^")];
    assert forall i :: 0 <= i < |parts| ==> '|' !in parts[i];
    Text.JoinThenSplit(parts, '|');
    if fields != [] {
      Text.JoinThenSplit(fields, '^');
    }
  }

  /** Parsing an execution frame built from fourteen or more fields gives back their tick. */
  lemma PriceMessageRoundTrip(count: string, fields: seq<string>)
    requires '|' !in count
    requires |fields| > FVolume
    requires forall i :: 0 <= i < |fields| ==> '|' !in fields[i] && '^' !in fields[i]
    ensures ParsePriceMessage(PriceFrame(count, fields)) == Some(TickOf(fields))
  {
    PriceFrameSplits(count, fields);
  }

  /** A payload one field short of the volume field gives no tick. */
  lemma ShortPayloadRejected(count: string, fields: seq<string>)
    requires '|' !in count
    requires 0 < |fields| <= FVolume
    requires forall i :: 0 <= i < |fields| ==> '|' !in fields[i] && '^' !in fields[i]
    ensures ParsePriceMessage(PriceFrame(count, fields)) == None
  {
    PriceFrameSplits(count, fields);
  }

  /** `_build_subscribe_msg`, before serialisation: tr_type "1" subscribes, "2" unsubscribes. */
  function SubscribeMsg(approvalKey: Json, code: string, subscribe: bool): Json
  {
    JObj(map[
      "header" := JObj(map[
        "approval_key" := approvalKey, "custtype" := JStr("P"),
        "tr_type" := JStr(if subscribe then "1" else "2"), "content-type" := JStr("utf-8")]),
      "body" := JObj(map["input" := JObj(map["tr_id" := JStr(PriceTrId), "tr_key" := JStr(code)])])])
  }

  /** The code a subscribe message names, read back from its body. */
  function MsgCode(m: Json): Option<string>
  {
    if m.JObj? && "body" in m.fields && m.fields["body"].JObj? && "input" in m.fields["body"].fields
       && m.fields["body"].fields["input"].JObj? && "tr_key" in m.fields["body"].fields["input"].fields
       && m.fields["body"].fields["input"].fields["tr_key"].JStr?
    then Some(m.fields["body"].fields["input"].fields["tr_key"].s)
    else None
  }

  lemma SubscribeMsgNamesCode(approvalKey: Json, code: string, subscribe: bool)
    ensures MsgCode(SubscribeMsg(approvalKey, code, subscribe)) == Some(code)
  {
  }

  function SubscribeMsgs(approvalKey: Json, codes: seq<string>): (ms: seq<Json>)
    ensures |ms| == |codes|
    ensures forall k :: 0 <= k < |codes| ==> ms[k] == SubscribeMsg(approvalKey, codes[k], true)
  {
    seq(|codes|, k requires 0 <= k < |codes| => SubscribeMsg(approvalKey, codes[k], true))
  }

  /** The distinct members of a list. */
  function Elems(s: seq<string>): set<string>
  {
    set i | 0 <= i < |s| :: s[i]
  }

  lemma ElemsCons(s: seq<string>)
    requires |s| > 0
    ensures Elems(s) == {s[0]} + Elems(s[1..])
  {
    forall x | x in Elems(s)
      ensures x in {s[0]} + Elems(s[1..])
    {
      var i :| 0 <= i < |s| && s[i] == x;
      if i > 0 { assert s[1..][i - 1] == x; }
    }
    forall x | x in Elems(s[1..])
      ensures x in Elems(s)
    {
      var i :| 0 <= i < |s[1..]| && s[1..][i] == x;
      assert s[i + 1] == x;
    }
  }

  /**
   * The codes `subscribe` sends for, in order: each code of the list not yet subscribed,
   * once, even when the list repeats it.
   */
  function Pending(codes: seq<string>, subscribed: set<string>): (p: seq<string>)
    ensures |p| <= |codes|
    decreases |codes|
  {
    if codes == [] then []
    else if codes[0] in subscribed then Pending(codes[1..], subscribed)
    else [codes[0]] + Pending(codes[1..], subscribed + {codes[0]})
  }

  /** Each pending code is in the list and not yet subscribed, and none is sent twice. */
  lemma {:induction false} PendingFresh(codes: seq<string>, subscribed: set<string>)
    ensures forall i :: 0 <= i < |Pending(codes, subscribed)| ==>
      Pending(codes, subscribed)[i] !in subscribed && Pending(codes, subscribed)[i] in codes
    ensures forall i, j :: 0 <= i < j < |Pending(codes, subscribed)| ==>
      Pending(codes, subscribed)[i] != Pending(codes, subscribed)[j]
    decreases |codes|
  {
    if codes != [] {
      assert forall x :: x in codes[1..] ==> x in codes;
      if codes[0] in subscribed {
        PendingFresh(codes[1..], subscribed);
        assert Pending(codes, subscribed) == Pending(codes[1..], subscribed);
      } else {
        PendingFresh(codes[1..], subscribed + {codes[0]});
        assert codes == [codes[0]] + codes[1..];
        FreshCons(codes[0], Pending(codes[1..], subscribed + {codes[0]}), subscribed, codes[1..]);
      }
    }
  }

  /** A fresh code in front of codes fresh after it keeps them all fresh and distinct. */
  lemma FreshCons(c: string, rest: seq<string>, subscribed: set<string>, tail: seq<string>)
    requires c !in subscribed
    requires forall i :: 0 <= i < |rest| ==> rest[i] !in subscribed + {c} && rest[i] in tail
    requires forall i, j :: 0 <= i < j < |rest| ==> rest[i] != rest[j]
    ensures forall i :: 0 <= i < |[c] + rest| ==> ([c] + rest)[i] !in subscribed && ([c] + rest)[i] in [c] + tail
    ensures forall i, j :: 0 <= i < j < |[c] + rest| ==> ([c] + rest)[i] != ([c] + rest)[j]
  {
    var p := [c] + rest;
    forall i | 1 <= i < |p|
      ensures p[i] !in subscribed && p[i] != c && p[i] in [c] + tail
    {
      assert p[i] == rest[i - 1];
    }
  }

  /** After the pending codes are sent, every code of the list is subscribed. */
  lemma {:induction false} PendingCovers(codes: seq<string>, subscribed: set<string>)
    ensures subscribed + Elems(Pending(codes, subscribed)) == subscribed + Elems(codes)
    decreases |codes|
  {
    if codes != [] {
      ElemsCons(codes);
      if codes[0] in subscribed {
        PendingCovers(codes[1..], subscribed);
      } else {
        var rest := Pending(codes[1..], subscribed + {codes[0]});
        PendingCovers(codes[1..], subscribed + {codes[0]});
        ElemsCons([codes[0]] + rest);
        assert ([codes[0]] + rest)[1..] == rest;
      }
    }
  }

  lemma PendingAt(codes: seq<string>, i: nat, subscribed: set<string>)
    requires i < |codes|
    ensures Pending(codes[i..], subscribed) ==
      if codes[i] in subscribed then Pending(codes[i + 1..], subscribed)
      else [codes[i]] + Pending(codes[i + 1..], subscribed + {codes[i]})
  {
    assert codes[i..][0] == codes[i] && codes[i..][1..] == codes[i + 1..];
  }

  /** One code of the loop: skipped when subscribed, otherwise the next pending code. */
  lemma PendingStep(codes: seq<string>, i: nat, sub: set<string>, sent: seq<string>, p: seq<string>)
    requires i < |codes| && sent + Pending(codes[i..], sub) == p
    ensures codes[i] in sub ==> sent + Pending(codes[i + 1..], sub) == p
    ensures codes[i] !in sub ==>
      && |sent| < |p| && p[|sent|] == codes[i] && p[..|sent|] == sent
      && (sent + [codes[i]]) + Pending(codes[i + 1..], sub + {codes[i]}) == p
  {
    PendingAt(codes, i, sub);
    if codes[i] !in sub {
      var rest := Pending(codes[i + 1..], sub + {codes[i]});
      assert p == sent + ([codes[i]] + rest) == (sent + [codes[i]]) + rest;
    }
  }

  /** A successful send extends the subscribed set, the outbox and the count of sends. */
  lemma SendKeeps(sub0: set<string>, box0: seq<Json>, key: Json, sent: seq<string>, c: string,
                  sub: set<string>, box: seq<Json>, sendOk: seq<bool>)
    requires |sent| < |sendOk| && SentCount(sendOk, |sent|) == |sent| && sendOk[|sent|]
    requires sub == sub0 + Elems(sent) && box == box0 + SubscribeMsgs(key, sent)
    ensures SentCount(sendOk, |sent| + 1) == |sent| + 1
    ensures sub + {c} == sub0 + Elems(sent + [c])
    ensures box + [SubscribeMsg(key, c, true)] == box0 + SubscribeMsgs(key, sent + [c])
  {
    ElemsSnoc(sent, c);
    OutboxSnoc(box0, key, sent, c);
  }

  /** A failed send stops the subscription with what was sent before it. */
  lemma SendFails(codes: seq<string>, sendOk: seq<bool>, key: Json, sub0: set<string>, box0: seq<Json>,
                  sent: seq<string>, sub: set<string>, box: seq<Json>)
    requires |sendOk| >= |codes|
    requires |sent| < |Pending(codes, sub0)| && Pending(codes, sub0)[..|sent|] == sent
    requires SentCount(sendOk, |sent|) == |sent| && !sendOk[|sent|]
    requires sub == sub0 + Elems(sent) && box == box0 + SubscribeMsgs(key, sent)
    ensures var p := Pending(codes, sub0); var k := SentCount(sendOk, |p|);
      && k != |p|
      && sub == sub0 + Elems(p[..k])
      && box == box0 + SubscribeMsgs(key, p[..k])
  {
    SentCountStops(sendOk, |sent|, |Pending(codes, sub0)|);
  }

  lemma OutboxSnoc(box0: seq<Json>, key: Json, sent: seq<string>, c: string)
    ensures box0 + SubscribeMsgs(key, sent) + [SubscribeMsg(key, c, true)] == box0 + SubscribeMsgs(key, sent + [c])
  {
    SubscribeMsgsSnoc(key, sent, c);
    assert box0 + SubscribeMsgs(key, sent + [c]) == box0 + (SubscribeMsgs(key, sent) + [SubscribeMsg(key, c, true)]);
  }

  lemma ElemsSnoc(s: seq<string>, x: string)
    ensures Elems(s + [x]) == Elems(s) + {x}
  {
    assert (s + [x])[|s|] == x;
    forall y | y in Elems(s)
      ensures y in Elems(s + [x])
    {
      var i :| 0 <= i < |s| && s[i] == y;
      assert (s + [x])[i] == y;
    }
  }

  lemma SubscribeMsgsSnoc(key: Json, s: seq<string>, x: string)
    ensures SubscribeMsgs(key, s + [x]) == SubscribeMsgs(key, s) + [SubscribeMsg(key, x, true)]
  {
  }

  /** Subscribing twice to the same list sends nothing the second time. */
  lemma {:induction false} PendingEmptyOnceSubscribed(codes: seq<string>, subscribed: set<string>)
    requires forall i :: 0 <= i < |codes| ==> codes[i] in subscribed
    ensures Pending(codes, subscribed) == []
    decreases |codes|
  {
    if codes != [] {
      PendingEmptyOnceSubscribed(codes[1..], subscribed);
    }
  }

  /** The length of the longest prefix of `oks` that holds only `true`, up to `n`. */
  function SentCount(oks: seq<bool>, n: nat): (k: nat)
    requires n <= |oks|
    ensures k <= n
    ensures forall i :: 0 <= i < k ==> oks[i]
    ensures k < n ==> !oks[k]
  {
    if n == 0 then 0
    else
      var k := SentCount(oks, n - 1);
      if k == n - 1 && oks[n - 1] then n else k
  }

  /** Once a send fails, no later send counts. */
  lemma {:induction false} SentCountStops(oks: seq<bool>, k: nat, n: nat)
    requires k < n <= |oks| && SentCount(oks, k) == k && !oks[k]
    ensures SentCount(oks, n) == k
    decreases n
  {
    if n > k + 1 {
      SentCountStops(oks, k, n - 1);
    }
  }

  /** The ticks a stream of text frames yields: every frame that parses, in arrival order. */
  function Ticks(frames: seq<string>): (ts: seq<PriceTick>)
    ensures |ts| <= |frames|
  {
    if frames == [] then []
    else match ParsePriceMessage(frames[0])
      case None => Ticks(frames[1..])
      case Some(t) => [t] + Ticks(frames[1..])
  }

  lemma {:induction false} TicksConcat(a: seq<string>, b: seq<string>)
    ensures Ticks(a + b) == Ticks(a) + Ticks(b)
    decreases |a|
  {
    if a == [] {
      assert a + b == b;
    } else {
      assert (a + b)[0] == a[0] && (a + b)[1..] == a[1..] + b;
      TicksConcat(a[1..], b);
    }
  }

  /** One more frame adds its tick, if it parses, at the end. */
  lemma TicksStep(frames: seq<string>, i: nat)
    requires i < |frames|
    ensures Ticks(frames[..i + 1]) == Ticks(frames[..i]) + (match ParsePriceMessage(frames[i]) case None => [] case Some(t) => [t])
  {
    TicksConcat(frames[..i], [frames[i]]);
    assert frames[..i + 1] == frames[..i] + [frames[i]];
    assert [frames[i]][1..] == [];
  }

  // ---------------------------------------------------------------------------
  // connection lifecycle
  // ---------------------------------------------------------------------------

  /** How the message loop ended: the server closed normally, or the connection failed. */
  datatype Ending = ClosedCleanly | Dropped

  /** Everything the outside world supplies to one connection attempt. */
  datatype Session = Session(keyReply: Client.Reply, sendOk: seq<bool>, frames: seq<string>, ending: Ending)

  datatype WsState = WsState(approvalKey: Json, open: bool, subscribed: set<string>, outbox: seq<Json>)

  /** The approval key after `_get_approval_key`: the cached one while truthy, else the reply's. */
  function KeyAfter(cached: Json, reply: Client.Reply): (r: Result<Json, Client.ClientError>)
    ensures Truthy(cached) ==> r == Ok(cached)
  {
    if Truthy(cached) then Ok(cached)
    else if reply.Err? then Err(reply.error)
    else match Client.CheckStatus(reply.value)
      case Err(e) => Err(e)
      case Ok(body) =>
        if body.JObj? && "approval_key" in body.fields then Ok(body.fields["approval_key"])
        else Err(Client.Malformed("approval_key"))
  }

  /** `subscribe` on an open socket: sends for pending codes until a send fails. */
  function AfterSubscribe(st: WsState, codes: seq<string>, sendOk: seq<bool>): (r: (WsState, bool))
    requires |sendOk| >= |codes|
  {
    if !st.open then (st, true)
    else
      var p := Pending(codes, st.subscribed);
      var k := SentCount(sendOk, |p|);
      (st.(subscribed := st.subscribed + Elems(p[..k]),
           outbox := st.outbox + SubscribeMsgs(st.approvalKey, p[..k])),
       k == |p|)
  }

  /** The reset `run` performs when a connection attempt raises. */
  function Reset(st: WsState): WsState
  {
    st.(open := false, subscribed := {})
  }

  /** What one `_connect_and_stream` call leaves: the state, the ticks delivered, whether it raised. */
  datatype Streamed = Streamed(state: WsState, ticks: seq<PriceTick>, raised: bool)

  /**
   * `_connect_and_stream`: the approval key, then the socket attached, the codes subscribed
   * and every frame read until the connection ends; a normal close returns, a failure raises.
   */
  function Connect(st: WsState, codes: seq<string>, s: Session): (r: Streamed)
    requires |s.sendOk| >= |codes|
    ensures KeyAfter(st.approvalKey, s.keyReply).Err? ==> r == Streamed(st, [], true)
    ensures !r.raised ==> s.ending == ClosedCleanly && r.ticks == Ticks(s.frames) && r.state.open
  {
    match KeyAfter(st.approvalKey, s.keyReply)
    case Err(_) => Streamed(st, [], true)
    case Ok(key) =>
      var (st1, ok) := AfterSubscribe(st.(approvalKey := key, open := true), codes, s.sendOk);
      if !ok then Streamed(st1, [], true)
      else Streamed(st1, Ticks(s.frames), s.ending == Dropped)
  }

  /**
   * One iteration of `run`, as written: an exception resets the socket and the
   * subscriptions, a normal close leaves both as they were.
   */
  function SessionAsWritten(st: WsState, codes: seq<string>, s: Session): (r: (WsState, seq<PriceTick>))
    requires |s.sendOk| >= |codes|
  {
    var c := Connect(st, codes, s);
    (if c.raised then Reset(c.state) else c.state, c.ticks)
  }

  /** The same with the reset applied however the connection ends. */
  function SessionCorrected(st: WsState, codes: seq<string>, s: Session): (r: (WsState, seq<PriceTick>))
    requires |s.sendOk| >= |codes|
    ensures !r.0.open && r.0.subscribed == {}
    ensures r.0.approvalKey == st.approvalKey || KeyAfter(st.approvalKey, s.keyReply).Ok?
  {
    var c := Connect(st, codes, s);
    (Reset(c.state), c.ticks)
  }

  /** `run` over a finite run of connection attempts, corrected. */
  function RunCorrected(st: WsState, codes: seq<string>, sessions: seq<Session>): (r: (WsState, seq<PriceTick>))
    requires forall i :: 0 <= i < |sessions| ==> |sessions[i].sendOk| >= |codes|
    decreases |sessions|
  {
    if sessions == [] then (st, [])
    else
      var (st1, t1) := SessionCorrected(st, codes, sessions[0]);
      var (st2, t2) := RunCorrected(st1, codes, sessions[1..]);
      (st2, t1 + t2)
  }

  /** A run is its first attempt followed by the run of the others. */
  lemma RunStep(st: WsState, codes: seq<string>, sessions: seq<Session>)
    requires forall k :: 0 <= k < |sessions| ==> |sessions[k].sendOk| >= |codes|
    requires sessions != []
    ensures forall k :: 0 <= k < |sessions| - 1 ==> |sessions[1..][k].sendOk| >= |codes|
    ensures var step := SessionCorrected(st, codes, sessions[0]);
      var next := RunCorrected(step.0, codes, sessions[1..]);
      RunCorrected(st, codes, sessions) == (next.0, step.1 + next.1)
  {
  }

  function AllSend(n: nat): (oks: seq<bool>)
    ensures |oks| == n && forall i :: 0 <= i < n ==> oks[i]
  {
    seq(n, _ => true)
  }

  /**
   * As written, after a connection the server closes normally, the next connection sends
   * no subscription at all for codes already subscribed, so it streams nothing for them.
   */
  lemma {:induction false} CleanCloseLosesSubscriptions(st: WsState, code: string, frames: seq<string>)
    requires Truthy(st.approvalKey) && st.subscribed == {}
    ensures var s := Session(Err(Client.Transport("unused")), AllSend(1), frames, ClosedCleanly);
      var (st1, _) := SessionAsWritten(st, [code], s);
      var (st2, _) := SessionAsWritten(st1, [code], s);
      && |st1.outbox| == |st.outbox| + 1
      && st2.outbox == st1.outbox
      && code in st2.subscribed
  {
    var s := Session(Err(Client.Transport("unused")), AllSend(1), frames, ClosedCleanly);
    assert Pending([code], {}) == [code];
    var (st1, _) := SessionAsWritten(st, [code], s);
    assert st1.subscribed == {code};
    PendingEmptyOnceSubscribed([code], st1.subscribed);
  }

  /** Corrected, every connection starts from no subscriptions and so subscribes every code. */
  lemma {:induction false} ReconnectResubscribes(st: WsState, codes: seq<string>, s: Session)
    requires |s.sendOk| >= |codes|
    requires forall i :: 0 <= i < |codes| ==> s.sendOk[i]
    requires KeyAfter(SessionCorrected(st, codes, s).0.approvalKey, s.keyReply).Ok?
    ensures var st1 := SessionCorrected(st, codes, s).0;
      var key := KeyAfter(st1.approvalKey, s.keyReply).value;
      var st2 := AfterSubscribe(st1.(approvalKey := key, open := true), codes, s.sendOk).0;
      && st2.outbox == st1.outbox + SubscribeMsgs(key, Pending(codes, {}))
      && st2.subscribed == Elems(codes)
  {
    var st1 := SessionCorrected(st, codes, s).0;
    var p := Pending(codes, {});
    var k := SentCount(s.sendOk, |p|);
    assert p[..k] == p;
    PendingCovers(codes, {});
  }

  // ---------------------------------------------------------------------------
  // the client object
  // ---------------------------------------------------------------------------

  class KisWebSocket {
    const appKey: string
    const appSecret: string

    /** JNull until obtained; afterwards whatever the server sent as the key. */
    var approvalKey: Json
    /** A socket is attached. */
    var open: bool
    var subscribed: set<string>
    var outbox: seq<Json>

    constructor (appKey: string, appSecret: string)
      ensures this.appKey == appKey && this.appSecret == appSecret
      ensures approvalKey == JNull && !open && subscribed == {} && outbox == []
    {
      this.appKey := appKey;
      this.appSecret := appSecret;
      approvalKey := JNull;
      open := false;
      subscribed := {};
      outbox := [];
    }

    function State(): WsState
      reads this
    {
      WsState(approvalKey, open, subscribed, outbox)
    }

    function ApprovalRequest(): Client.Request
      reads this
    {
      Client.Request("POST", Endpoints.Paths["approval"], map[], map[],
        map["grant_type" := "client_credentials", "appkey" := appKey, "secretkey" := appSecret])
    }

    /** `_get_approval_key`: one request the first time, the cached key afterwards. */
    method GetApprovalKey(reply: Client.Reply) returns (r: Result<Json, Client.ClientError>, sent: Option<Client.Request>)
      modifies this`approvalKey
      ensures r == KeyAfter(old(approvalKey), reply)
      ensures sent.Some? <==> !Truthy(old(approvalKey))
      ensures sent.Some? ==> sent.value == ApprovalRequest()
      ensures approvalKey == if r.Ok? then r.value else old(approvalKey)
    {
      if Truthy(approvalKey) {
        return Ok(approvalKey), None;
      }
      sent := Some(ApprovalRequest());
      if reply.Err? {
        return Err(reply.error), sent;
      }
      var body := Client.CheckStatus(reply.value);
      if body.Err? {
        return Err(body.error), sent;
      }
      if !(body.value.JObj? && "approval_key" in body.value.fields) {
        return Err(Client.Malformed("approval_key")), sent;
      }
      approvalKey := body.value.fields["approval_key"];
      r := Ok(approvalKey);
    }

    /**
     * `subscribe`: nothing without a socket; otherwise one message per pending code, each
     * code recorded right after its send, stopping at the first send that fails.
     */
    method Subscribe(codes: seq<string>, sendOk: seq<bool>) returns (ok: bool)
      requires |sendOk| >= |codes|
      modifies this`subscribed, this`outbox
      ensures !open ==> ok && subscribed == old(subscribed) && outbox == old(outbox)
      ensures open ==> var p := Pending(codes, old(subscribed)); var k := SentCount(sendOk, |p|);
        && ok == (k == |p|)
        && subscribed == old(subscribed) + Elems(p[..k])
        && outbox == old(outbox) + SubscribeMsgs(approvalKey, p[..k])
    {
      if !open {
        return true;
      }
      ok, subscribed, outbox := SendPending(codes, sendOk, approvalKey, subscribed, outbox);
    }

    /** The loop of `subscribe`, over the subscribed set and the sent messages. */
    static method SendPending(codes: seq<string>, sendOk: seq<bool>, key: Json, sub0: set<string>, box0: seq<Json>)
      returns (ok: bool, sub: set<string>, box: seq<Json>)
      requires |sendOk| >= |codes|
      ensures var p := Pending(codes, sub0); var k := SentCount(sendOk, |p|);
        && ok == (k == |p|)
        && sub == sub0 + Elems(p[..k])
        && box == box0 + SubscribeMsgs(key, p[..k])
    {
      sub, box := sub0, box0;
      ghost var p := Pending(codes, sub0);
      ghost var sent: seq<string> := [];
      var sends := 0;
      var i := 0;
      while i < |codes|
        invariant 0 <= i <= |codes|
        invariant sends == |sent|
        invariant sent + Pending(codes[i..], sub) == p
        invariant sends <= |p| && SentCount(sendOk, sends) == sends
        invariant sub == sub0 + Elems(sent)
        invariant box == box0 + SubscribeMsgs(key, sent)
      {
        PendingStep(codes, i, sub, sent, p);
        if codes[i] !in sub {
          if !sendOk[sends] {
            SendFails(codes, sendOk, key, sub0, box0, sent, sub, box);
            return false, sub, box;
          }
          SendKeeps(sub0, box0, key, sent, codes[i], sub, box, sendOk);
          box := box + [SubscribeMsg(key, codes[i], true)];
          sub := sub + {codes[i]};
          sent := sent + [codes[i]];
          sends := sends + 1;
        }
        i := i + 1;
      }
      assert codes[i..] == [] && sent == p && p[..|p|] == p;
      ok := true;
    }

    /** The message loop: each frame that parses becomes a tick, in arrival order. */
    static method StreamFrames(frames: seq<string>) returns (ticks: seq<PriceTick>)
      ensures ticks == Ticks(frames)
    {
      ticks := [];
      var i := 0;
      while i < |frames|
        invariant 0 <= i <= |frames|
        invariant ticks == Ticks(frames[..i])
      {
        var price := ParsePriceMessage(frames[i]);
        TicksStep(frames, i);
        if price.Some? {
          ticks := ticks + [price.value];
        }
        i := i + 1;
      }
      assert frames[..i] == frames;
    }

    /** `_connect_and_stream`: each frame that parses is handed on as a tick, in arrival order. */
    method ConnectAndStream(codes: seq<string>, s: Session) returns (ticks: seq<PriceTick>, raised: bool)
      requires |s.sendOk| >= |codes|
      modifies this`approvalKey, this`open, this`subscribed, this`outbox
      ensures Streamed(State(), ticks, raised) == Connect(old(State()), codes, s)
    {
      var key, _ := GetApprovalKey(s.keyReply);
      if key.Err? {
        return [], true;
      }
      open := true;
      var ok := Subscribe(codes, s.sendOk);
      if !ok {
        return [], true;
      }
      ticks := StreamFrames(s.frames);
      raised := s.ending == Dropped;
    }

    /**
     * `run` over a finite run of connection attempts, with the socket and the subscriptions
     * dropped whenever a connection ends; the reconnect delay is not modelled.
     */
    method Run(codes: seq<string>, sessions: seq<Session>) returns (ticks: seq<PriceTick>)
      requires forall i :: 0 <= i < |sessions| ==> |sessions[i].sendOk| >= |codes|
      modifies this`approvalKey, this`open, this`subscribed, this`outbox
      ensures (State(), ticks) == RunCorrected(old(State()), codes, sessions)
    {
      ghost var whole := RunCorrected(State(), codes, sessions);
      ticks := [];
      var rest := sessions;
      while rest != []
        invariant forall k :: 0 <= k < |rest| ==> |rest[k].sendOk| >= |codes|
        invariant whole.0 == RunCorrected(State(), codes, rest).0
        invariant whole.1 == ticks + RunCorrected(State(), codes, rest).1
      {
        RunStep(State(), codes, rest);
        var t := Attempt(codes, rest[0]);
        ticks := ticks + t;
        rest := rest[1..];
      }
      assert ticks + [] == ticks;
    }

    /** One pass of the `run` loop: connect and stream, then drop the socket and the subscriptions. */
    method Attempt(codes: seq<string>, s: Session) returns (ticks: seq<PriceTick>)
      requires |s.sendOk| >= |codes|
      modifies this`approvalKey, this`open, this`subscribed, this`outbox
      ensures (State(), ticks) == SessionCorrected(old(State()), codes, s)
    {
      var raised;
      ticks, raised := ConnectAndStream(codes, s);
      open := false;
      subscribed := {};
    }

    /** `close`: detaches the socket; the subscriptions and the approval key are kept. */
    method Close()
      modifies this`open
      ensures !open
    {
      if open {
        open := false;
      }
    }
  }
}
