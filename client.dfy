/** The WxPay client: credentials fixed at construction, the signer and its
    check, the notification reply, and the request builders of every
    operation. A builder's caller dict is copied on entry (`**data`), so each
    builder works on a map value: the defaults are filled into a local copy
    step by step and the caller's map is never touched. */
module Client {
  import opened Values
  import opened Canonical
  import opened Envelope
  import opened Gateway
  import opened Randomness

  predicate IsLower(c: char)
  {
    'a' <= c <= 'z'
  }

  /** `str.upper()` on the ASCII text of a hex digest. */
  function Upper(s: string): (r: string)
    ensures |r| == |s|
    ensures forall i :: 0 <= i < |r| ==> !IsLower(r[i])
    ensures forall i :: 0 <= i < |s| && !IsLower(s[i]) ==> r[i] == s[i]
    ensures forall i :: 0 <= i < |s| && IsLower(s[i]) ==> r[i] as int == s[i] as int - 32
  {
    if s == [] then []
    else
      var c := s[0];
      [if IsLower(c) then (c as int - 32) as char else c] + Upper(s[1..])
  }

  /** A caller's dict that `check` modifies in place. */
  class FieldMap {
    var entries: Fields

    constructor (entries: Fields)
      ensures this.entries == entries
    {
      this.entries := entries;
    }
  }

  /** The token enterprise_payment sends in place of a caller's `check_name`:
      a name check is forced exactly when the caller's value is truthy. */
  function CheckNameToken(v: Value): (r: Value)
    ensures r == Str("FORCE_CHECK") || r == Str("NO_CHECK")
    ensures r == Str("FORCE_CHECK") <==> Truthy(v)
  {
    if Truthy(v) then Str("FORCE_CHECK") else Str("NO_CHECK")
  }

  /** The two fields of a notification acknowledgement. The message is any
      value the caller passes; to_xml writes it in its str.format text. */
  function ReplyFields(msg: Value, ok: bool): (r: Fields)
    ensures r.Keys == {"return_code", "return_msg"}
    ensures r["return_code"] == Str("SUCCESS") <==> ok
    ensures r["return_msg"] == msg
    ensures CheckReturn(Parsed(r)).Ok? <==> ok
  {
    map["return_code" := Str(if ok then "SUCCESS" else "FAIL"), "return_msg" := msg]
  }

  /** What the gateway reads from an acknowledgement: the message's text,
      and None when that text is empty. */
  function ReplyRead(msg: Value, ok: bool): Fields
  {
    map["return_code" := Str(if ok then "SUCCESS" else "FAIL"),
        "return_msg" := if Format(msg) == "" then Null else Str(Format(msg))]
  }

  lemma ReplyNames()
    ensures IsName("return_code") && IsName("return_msg")
    ensures PlainText("SUCCESS") && PlainText("FAIL")
  {
  }

  /** Each acknowledgement field reads back as its text, None when empty. */
  lemma ReplyFieldsRead(msg: Value, ok: bool)
    ensures (map k | k in ReplyFields(msg, ok) :: Decoded(ReplyFields(msg, ok)[k])) == ReplyRead(msg, ok)
  {
    var m := ReplyFields(msg, ok);
    var d := map k | k in m :: Decoded(m[k]);
    assert d.Keys == ReplyRead(msg, ok).Keys;
    assert d["return_code"] == ReplyRead(msg, ok)["return_code"];
    assert d["return_msg"] == ReplyRead(msg, ok)["return_msg"];
  }

  /** The acknowledgement reads back as its code and message, whichever
      order the two fields were written in. */
  lemma ReplyDecodes(msg: Value, ok: bool, order: seq<string>)
    requires PlainText(Format(msg)) && Listing(order, ReplyFields(msg, ok).Keys)
    ensures Decode(EnvelopeText(ReplyFields(msg, ok), order)) == Some(ReplyRead(msg, ok))
  {
    ReplyNames();
    ReplyFieldsRead(msg, ok);
    DecodeEnvelope(ReplyFields(msg, ok), order);
  }

  /** The mapping js_pay_api signs for the browser, `signType` included. */
  function JsSignedFields(package: string, appId: string, jsNonce: string, timestamp: int): Fields
  {
    map["appId" := Str(appId), "timeStamp" := Int(timestamp), "nonceStr" := Str(jsNonce),
        "package" := Str(package), "signType" := Str("MD5")]
  }

  /** The mapping js_pay_api returns: the signed fields without `signType`,
      and the signature under `sign`. */
  function BrowserParams(package: string, appId: string, jsNonce: string, timestamp: int, sig: Value): (js: Fields)
    ensures js.Keys == {"appId", "timeStamp", "nonceStr", "package", "sign"}
    ensures js["sign"] == sig
  {
    map["package" := Str(package), "appId" := Str(appId), "timeStamp" := Int(timestamp),
        "nonceStr" := Str(jsNonce), "sign" := sig]
  }

  /** Putting `signType` back into the returned parameters and taking out
      `sign` gives exactly the signed mapping. */
  lemma JsSignedBack(package: string, appId: string, jsNonce: string, timestamp: int, sig: Value)
    ensures BrowserParams(package, appId, jsNonce, timestamp, sig)["signType" := Str("MD5")] - {"sign"}
         == JsSignedFields(package, appId, jsNonce, timestamp)
  {
  }

  class WxPay {
    const appId: string
    const mchId: string
    const mchKey: string
    const notifyUrl: string
    /** The lower-case hex MD5 digest of a text, left uninterpreted. */
    const md5Hex: string -> string

    /** __init__: the four merchant credentials, and the digest the client
        signs with for its whole lifetime. */
    constructor (appId: string, mchId: string, mchKey: string, notifyUrl: string, md5Hex: string -> string)
      ensures this.appId == appId && this.mchId == mchId && this.mchKey == mchKey
      ensures this.notifyUrl == notifyUrl && this.md5Hex == md5Hex
    {
      this.appId := appId;
      this.mchId := mchId;
      this.mchKey := mchKey;
      this.notifyUrl := notifyUrl;
      this.md5Hex := md5Hex;
    }

    /** sign: the upper-cased digest of the signing string under the merchant key. */
    function Sign(m: Fields): (r: string)
      ensures |r| == |md5Hex(SigningString(m, mchKey))|
      ensures forall i :: 0 <= i < |r| ==> !IsLower(r[i])
      ensures forall i :: 0 <= i < |r| && !IsLower(md5Hex(SigningString(m, mchKey))[i]) ==>
        r[i] == md5Hex(SigningString(m, mchKey))[i]
      ensures forall i :: 0 <= i < |r| && IsLower(md5Hex(SigningString(m, mchKey))[i]) ==>
        r[i] as int == md5Hex(SigningString(m, mchKey))[i] as int - 32
    {
      Upper(md5Hex(SigningString(m, mchKey)))
    }

    /** The signature depends on the surviving pairs alone, never on the
        order the mapping was built in. */
    lemma SignDependsOnlyOnKept(m1: Fields, m2: Fields)
      requires forall k :: (k in m1 && Kept(m1[k])) <==> (k in m2 && Kept(m2[k]))
      requires forall k :: k in m1 && k in m2 && Kept(m1[k]) ==> Format(m1[k]) == Format(m2[k])
      ensures Sign(m1) == Sign(m2)
    {
      SameKeptSameCanonical(m1, m2);
    }

    /** A field that is None or empty signs as if it were absent. */
    lemma SignIgnoresDropped(m: Fields, k: string, v: Value)
      requires v == Null || v == Str("")
      ensures Sign(m[k := v]) == Sign(m - {k})
    {
      KeptIff(v);
      DroppedIgnored(m, k, v, mchKey);
    }

    /** Zero and False are not dropped: they sign as the texts "0" and "False". */
    lemma SignKeepsZeroAndFalse(m: Fields, k: string)
      requires forall j :: j in m ==> !Kept(m[j])
      ensures Sign(m[k := Int(0)]) == Upper(md5Hex(k + "=" + "0" + "&key=" + mchKey))
      ensures Sign(m[k := Bool(false)]) == Upper(md5Hex(k + "=" + "False" + "&key=" + mchKey))
    {
      assert Format(Int(0)) == "0" by {
        assert NatText(0) == [DigitChar(0)];
      }
      SingleKept(m[k := Int(0)], k, mchKey);
      SingleKept(m[k := Bool(false)], k, mchKey);
    }

    /** The key suffix is appended even when no pair survives. */
    lemma SignOfNothing(m: Fields)
      requires forall k :: k in m ==> !Kept(m[k])
      ensures Sign(m) == Upper(md5Hex("&key=" + mchKey))
    {
      NothingKept(m, mchKey);
    }

    /** What `check` answers for a mapping: KeyError without a `sign` field,
        otherwise whether that field equals the signature of the rest. */
    function CheckResult(m: Fields): (r: Result<bool>)
      ensures r.Err? <==> "sign" !in m
      ensures r.Err? ==> r.error == KeyError("sign")
      ensures r.Ok? ==> (r.value <==> m["sign"] == Str(Sign(m - {"sign"})))
    {
      if "sign" !in m then Err(KeyError("sign"))
      else Ok(m["sign"] == Str(Sign(m - {"sign"})))
    }

    /** A mapping signed with its own signature passes the check. */
    lemma CheckAcceptsSigned(m: Fields)
      requires "sign" !in m
      ensures CheckResult(m["sign" := Str(Sign(m))]) == Ok(true)
    {
      SignAssigned(m, Str(Sign(m)));
    }

    /** Any other signature text fails it. */
    lemma CheckRejectsOther(m: Fields, s: string)
      requires "sign" !in m && s != Sign(m)
      ensures CheckResult(m["sign" := Str(s)]) == Ok(false)
    {
      SignAssigned(m, Str(s));
    }

    /** check: pops `sign` from the caller's map, then compares. The map
        loses the field and keeps every other entry; without a `sign` field
        the pop raises and the map is unchanged. */
    method Check(raw: FieldMap) returns (r: Result<bool>)
      modifies raw
      ensures raw.entries == old(raw.entries) - {"sign"}
      ensures r == CheckResult(old(raw.entries))
    {
      if "sign" !in raw.entries {
        return Err(KeyError("sign"));
      }
      var sign := raw.entries["sign"];
      raw.entries := raw.entries - {"sign"};
      r := Ok(sign == Str(Sign(raw.entries)));
    }

    /** The last step of every builder: the request is signed over its own
        fields, unless the caller already put a `sign` in it. */
    function SignDefault(q: Fields): (r: Fields)
      ensures "sign" in r
      ensures "sign" in q ==> r == q
      ensures "sign" !in q ==> r - {"sign"} == q && r["sign"] == Str(Sign(q))
    {
      var r := SetDefault(q, "sign", Str(Sign(q)));
      assert "sign" !in q ==> r - {"sign"} == q;
      r
    }

    /** The request is `data` completed with `defaults` and signed last: the
        signature covers every other field after all defaults are in, and
        not itself. A `sign` the caller passed is sent as it is. */
    ghost predicate SignedFrom(q: Fields, data: Fields, defaults: Fields)
    {
      && "sign" in q
      && FilledIn(q - {"sign"}, data - {"sign"}, defaults)
      && ("sign" in data ==> q["sign"] == data["sign"])
      && ("sign" !in data ==> q["sign"] == Str(Sign(q - {"sign"})))
    }

    lemma SignDefaultSigned(q: Fields, data: Fields, defaults: Fields)
      requires "sign" !in defaults && FilledIn(q, data, defaults)
      ensures SignedFrom(SignDefault(q), data, defaults)
    {
      SignSlot(q, data, defaults, Str(Sign(q)));
    }

    /** A request built without a caller-supplied `sign` passes `check`. */
    lemma SignedRequestChecks(q: Fields, data: Fields, defaults: Fields)
      requires SignedFrom(q, data, defaults) && "sign" !in data
      ensures CheckResult(q) == Ok(true)
    {
    }

    /** reply: writes the acknowledgement envelope of a notification. */
    method Reply(msg: Value, ok: bool) returns (s: string, ghost order: seq<string>)
      ensures Listing(order, ReplyFields(msg, ok).Keys)
      ensures s == EnvelopeText(ReplyFields(msg, ok), order)
      ensures PlainText(Format(msg)) ==> Decode(s) == Some(ReplyRead(msg, ok))
    {
      s, order := ToXml(ReplyFields(msg, ok));
      if PlainText(Format(msg)) {
        ReplyDecodes(msg, ok, order);
      }
    }

    function UnifiedOrderDefaults(userIp: Value, nonce: string): Fields
    {
      map["appid" := Str(appId), "mch_id" := Str(mchId), "notify_url" := Str(notifyUrl),
          "nonce_str" := Str(nonce), "spbill_create_ip" := userIp]
    }

    /** unified_order's defaults, by setdefault in the order unified_order sets them. */
    method UnifiedOrderFill(data: Fields, userIp: Value, nonce: string) returns (q: Fields)
      ensures FilledIn(q, data, UnifiedOrderDefaults(userIp, nonce))
    {
      q := data;
      ghost var filled: Fields := map[];
      q, filled := Fill3(q, data, filled, "appid", Str(appId), "mch_id", Str(mchId), "notify_url", Str(notifyUrl));
      q, filled := Fill(q, data, filled, "nonce_str", Str(nonce));
      q, filled := Fill(q, data, filled, "spbill_create_ip", userIp);
      assert filled == UnifiedOrderDefaults(userIp, nonce);
    }

    /** unified_order. `userIp` is the framework's caller address (Null
        outside a request), `nonce` the generated nonce_str, `response` what the
        gateway answers. */
    method UnifiedOrder(data: Fields, userIp: Value, nonce: string, response: Response) returns (r: Outcome<Fields>)
      ensures r.Rejected? <==> !UnifiedOrderAccepts(data, userIp)
      ensures r.Rejected? ==> UnifiedOrderError(data, userIp) == Some(r.error)
      ensures r.Sent? ==> r.call.url == UnifiedOrderUrl && r.call.channel == Plain
      ensures r.Sent? ==> SignedFrom(r.call.request, data, UnifiedOrderDefaults(userIp, nonce))
      ensures r.Sent? ==> r.result == CheckBusiness(response)
    {
      var e := UnifiedOrderError(data, userIp);
      if e.Some? {
        return Rejected(e.value);
      }
      var q := UnifiedOrderFill(data, userIp, nonce);
      SignDefaultSigned(q, data, UnifiedOrderDefaults(userIp, nonce));
      q := SignDefault(q);
      var c := Call(UnifiedOrderUrl, Plain, q);
      r := Sent(c, CheckBusiness(response));
    }

    /** The order js_pay_api places: JSAPI, and a generated out_trade_no,
        unless the caller chose otherwise. */
    function JsOrder(kwargs: Fields, tradeNo: string): (d: Fields)
      ensures FilledIn(d, kwargs, map["trade_type" := Str("JSAPI"), "out_trade_no" := Str(tradeNo)])
    {
      SetDefault(SetDefault(kwargs, "trade_type", Str("JSAPI")), "out_trade_no", Str(tradeNo))
    }

    /** The parameters js_pay_api hands the browser for a prepay id. The
        signature covers `signType`, which the map leaves out, so the
        browser's check passes once `signType` is put back. */
    function JsParams(prepayId: Value, jsNonce: string, timestamp: int): (js: Fields)
      ensures js.Keys == {"appId", "timeStamp", "nonceStr", "package", "sign"}
      ensures js["package"] == Str("prepay_id=" + Format(prepayId))
      ensures js["appId"] == Str(appId) && js["timeStamp"] == Int(timestamp) && js["nonceStr"] == Str(jsNonce)
      ensures CheckResult(js["signType" := Str("MD5")]) == Ok(true)
    {
      var package := "prepay_id=" + Format(prepayId);
      var signed := JsSignedFields(package, appId, jsNonce, timestamp);
      var sig := Str(Sign(signed));
      JsSignedBack(package, appId, jsNonce, timestamp, sig);
      BrowserParams(package, appId, jsNonce, timestamp, sig)
    }

    /** js_pay_api: a unified order for JSAPI, then the browser-side
        parameters for the `prepay_id` of its reply. */
    method JsPayApi(kwargs: Fields, userIp: Value, tradeNo: string, orderNonce: string, jsNonce: string,
                    timestamp: int, response: Response) returns (r: Outcome<Fields>)
      ensures r.Rejected? <==> !UnifiedOrderAccepts(JsOrder(kwargs, tradeNo), userIp)
      ensures r.Rejected? ==> UnifiedOrderError(JsOrder(kwargs, tradeNo), userIp) == Some(r.error)
      ensures r.Sent? ==> r.call.url == UnifiedOrderUrl && r.call.channel == Plain
      ensures r.Sent? ==> SignedFrom(r.call.request, JsOrder(kwargs, tradeNo), UnifiedOrderDefaults(userIp, orderNonce))
      ensures r.Sent? && CheckBusiness(response).Err? ==> r.result == CheckBusiness(response)
      ensures r.Sent? && CheckBusiness(response).Ok? ==>
        var f := CheckBusiness(response).value;
        r.result == if "prepay_id" in f then Ok(JsParams(f["prepay_id"], jsNonce, timestamp)) else Err(KeyError("prepay_id"))
    {
      var data := JsOrder(kwargs, tradeNo);
      var u := UnifiedOrder(data, userIp, orderNonce, response);
      if u.Rejected? {
        return u;
      }
      if u.result.Err? {
        return Sent(u.call, Err(u.result.error));
      }
      var raw := u.result.value;
      if "prepay_id" !in raw {
        return Sent(u.call, Err(KeyError("prepay_id")));
      }
      r := Sent(u.call, Ok(JsParams(raw["prepay_id"], jsNonce, timestamp)));
    }

    function QueryDefaults(nonce: string): Fields
    {
      map["appid" := Str(appId), "mch_id" := Str(mchId), "nonce_str" := Str(nonce)]
    }

    /** The query operations' defaults, by setdefault. */
    method QueryFill(data: Fields, nonce: string) returns (q: Fields)
      ensures FilledIn(q, data, QueryDefaults(nonce))
    {
      q := data;
      ghost var filled: Fields := map[];
      q, filled := Fill3(q, data, filled, "appid", Str(appId), "mch_id", Str(mchId), "nonce_str", Str(nonce));
      assert filled == QueryDefaults(nonce);
    }

    /** order_query: either order id will do. */
    method OrderQuery(data: Fields, nonce: string, response: Response) returns (r: Outcome<Fields>)
      ensures r.Rejected? <==> "out_trade_no" !in data && "transaction_id" !in data
      ensures r.Rejected? ==> r.error == MissingAnyOf(OrderIds)
      ensures r.Sent? ==> r.call.url == OrderQueryUrl && r.call.channel == Plain
      ensures r.Sent? ==> SignedFrom(r.call.request, data, QueryDefaults(nonce))
      ensures r.Sent? ==> r.result == CheckReturn(response)
    {
      if "out_trade_no" !in data && "transaction_id" !in data {
        return Rejected(MissingAnyOf(OrderIds));
      }
      var q := QueryFill(data, nonce);
      SignDefaultSigned(q, data, QueryDefaults(nonce));
      q := SignDefault(q);
      var c := Call(OrderQueryUrl, Plain, q);
      r := Sent(c, CheckReturn(response));
    }

    /** close_order: a fixed mapping, signed by assignment. It always sends. */
    method CloseOrder(outTradeNo: Value, nonce: string, response: Response) returns (r: Outcome<Fields>)
      ensures r.Sent? && r.call.url == CloseOrderUrl && r.call.channel == Plain
      ensures r.call.request - {"sign"} == QueryDefaults(nonce)["out_trade_no" := outTradeNo]
      ensures "sign" in r.call.request && CheckResult(r.call.request) == Ok(true)
      ensures r.result == CheckReturn(response)
    {
      var q := QueryDefaults(nonce)["out_trade_no" := outTradeNo];
      CheckAcceptsSigned(q);
      SignAssigned(q, Str(Sign(q)));
      q := q["sign" := Str(Sign(q))];
      var c := Call(CloseOrderUrl, Plain, q);
      r := Sent(c, CheckReturn(response));
    }

    function RefundDefaults(refundNo: string, nonce: string): Fields
    {
      map["out_refund_no" := Str(refundNo), "appid" := Str(appId), "mch_id" := Str(mchId),
          "op_user_id" := Str(mchId), "nonce_str" := Str(nonce)]
    }

    /** refund's defaults, by setdefault: a generated out_refund_no, and the merchant id as operator. */
    method RefundFill(data: Fields, refundNo: string, nonce: string) returns (q: Fields)
      ensures FilledIn(q, data, RefundDefaults(refundNo, nonce))
    {
      q := data;
      ghost var filled: Fields := map[];
      q, filled := Fill3(q, data, filled, "out_refund_no", Str(refundNo), "appid", Str(appId), "mch_id", Str(mchId));
      q, filled := Fill(q, data, filled, "op_user_id", Str(mchId));
      q, filled := Fill(q, data, filled, "nonce_str", Str(nonce));
      assert filled == RefundDefaults(refundNo, nonce);
    }

    /** refund, over the certificate channel; `refundNo` is the generated
        out_refund_no used when the caller gives none. */
    method Refund(certPath: string, keyPath: string, data: Fields, refundNo: string, nonce: string, response: Response)
      returns (r: Outcome<Fields>)
      ensures r.Rejected? <==> RefundError(data).Some?
      ensures r.Rejected? ==> RefundError(data) == Some(r.error)
      ensures r.Sent? ==> r.call.url == RefundUrl && r.call.channel == ClientCert(certPath, keyPath)
      ensures r.Sent? ==> SignedFrom(r.call.request, data, RefundDefaults(refundNo, nonce))
      ensures r.Sent? ==> r.result == CheckCertReturn(response)
    {
      var e := RefundError(data);
      if e.Some? {
        return Rejected(e.value);
      }
      var q := RefundFill(data, refundNo, nonce);
      SignDefaultSigned(q, data, RefundDefaults(refundNo, nonce));
      q := SignDefault(q);
      var c := Call(RefundUrl, ClientCert(certPath, keyPath), q);
      r := Sent(c, CheckCertReturn(response));
    }

    /** refund_query: any one of four ids will do. */
    method RefundQuery(data: Fields, nonce: string, response: Response) returns (r: Outcome<Fields>)
      ensures r.Rejected? <==> "out_refund_no" !in data && "out_trade_no" !in data && "transaction_id" !in data && "refund_id" !in data
      ensures r.Rejected? ==> r.error == MissingAnyOf(RefundIds)
      ensures r.Sent? ==> r.call.url == RefundQueryUrl && r.call.channel == Plain
      ensures r.Sent? ==> SignedFrom(r.call.request, data, QueryDefaults(nonce))
      ensures r.Sent? ==> r.result == CheckReturn(response)
    {
      if "out_refund_no" !in data && "out_trade_no" !in data && "transaction_id" !in data && "refund_id" !in data {
        return Rejected(MissingAnyOf(RefundIds));
      }
      var q := QueryFill(data, nonce);
      SignDefaultSigned(q, data, QueryDefaults(nonce));
      q := SignDefault(q);
      var c := Call(RefundQueryUrl, Plain, q);
      r := Sent(c, CheckReturn(response));
    }

    /** download_bill: bill_type is SUCCESS unless a truthy one is given, and
        the reply is handed back without any status check. */
    method DownloadBill(billDate: Value, billType: Value, nonce: string, response: Response) returns (r: Outcome<Response>)
      ensures r.Sent? && r.call.url == DownloadBillUrl && r.call.channel == Plain
      ensures r.call.request - {"sign"} == QueryDefaults(nonce)["bill_date" := billDate]
        ["bill_type" := if Truthy(billType) then billType else Str("SUCCESS")]
      ensures "sign" in r.call.request && CheckResult(r.call.request) == Ok(true)
      ensures r.result == Ok(response)
    {
      var q := QueryDefaults(nonce)["bill_date" := billDate]
        ["bill_type" := if Truthy(billType) then billType else Str("SUCCESS")];
      CheckAcceptsSigned(q);
      SignAssigned(q, Str(Sign(q)));
      q := q["sign" := Str(Sign(q))];
      var c := Call(DownloadBillUrl, Plain, q);
      r := Sent(c, Ok(response));
    }

    /** The merchant's serial for red packets and transfers: merchant id,
        the date as YYYYMMDD, and ten distinct digits. */
    function SerialNo(date: string, shuffled: string): (r: string)
      requires Shuffle(shuffled)
      ensures |r| == |mchId| + |date| + 10
      ensures r[..|mchId|] == mchId && r[|mchId|..|mchId| + |date|] == date
      ensures AllDigits(r[|mchId| + |date|..])
    {
      var digits := RandomNum(10, shuffled);
      var r := mchId + date + digits;
      assert r[|mchId| + |date|..] == digits;
      r
    }

    function RedPackDefaults(nonce: string, billNo: string): Fields
    {
      map["wxappid" := Str(appId), "mch_id" := Str(mchId), "nonce_str" := Str(nonce),
          "mch_billno" := Str(billNo), "total_num" := Int(1), "scene_id" := Str("PRODUCT_4")]
    }

    /** send_red_pack's defaults, by setdefault. */
    method RedPackFill(data: Fields, nonce: string, billNo: string) returns (q: Fields)
      ensures FilledIn(q, data, RedPackDefaults(nonce, billNo))
    {
      q := data;
      ghost var filled: Fields := map[];
      q, filled := Fill3(q, data, filled, "wxappid", Str(appId), "mch_id", Str(mchId), "nonce_str", Str(nonce));
      q, filled := Fill3(q, data, filled, "mch_billno", Str(billNo), "total_num", Int(1), "scene_id", Str("PRODUCT_4"));
      assert filled == RedPackDefaults(nonce, billNo);
    }

    /** send_red_pack, over the certificate channel. `date` is the local
        date as YYYYMMDD and `shuffled` the shuffled digits. */
    method SendRedPack(certPath: string, keyPath: string, data: Fields, nonce: string, date: string,
                       shuffled: string, response: Response) returns (r: Outcome<Fields>)
      requires Shuffle(shuffled)
      ensures r.Rejected? <==> !Present(data, RedPackRequired)
      ensures forall n :: FirstAbsent(data, RedPackRequired, n) ==> r == Rejected(MissingField(n))
      ensures r.Sent? ==> r.call.url == SendRedPackUrl && r.call.channel == ClientCert(certPath, keyPath)
      ensures r.Sent? ==> SignedFrom(r.call.request, data, RedPackDefaults(nonce, SerialNo(date, shuffled)))
      ensures r.Sent? ==> r.result == CheckCertReturn(response)
    {
      FirstAbsentUnique(data, RedPackRequired);
      var missing := FirstMissing(data, RedPackRequired);
      if missing.Some? {
        return Rejected(MissingField(missing.value));
      }
      var billNo := SerialNo(date, shuffled);
      var q := RedPackFill(data, nonce, billNo);
      SignDefaultSigned(q, data, RedPackDefaults(nonce, billNo));
      q := SignDefault(q);
      var c := Call(SendRedPackUrl, ClientCert(certPath, keyPath), q);
      r := Sent(c, CheckCertReturn(response));
    }

    function PaymentDefaults(nonce: string, tradeNo: string): Fields
    {
      map["mch_appid" := Str(appId), "mchid" := Str(mchId), "nonce_str" := Str(nonce),
          "partner_trade_no" := Str(tradeNo)]
    }

    /** enterprise_payment's defaults, by setdefault. */
    method PaymentFill(data: Fields, nonce: string, tradeNo: string) returns (q: Fields)
      ensures FilledIn(q, data, PaymentDefaults(nonce, tradeNo))
    {
      q := data;
      ghost var filled: Fields := map[];
      q, filled := Fill3(q, data, filled, "mch_appid", Str(appId), "mchid", Str(mchId), "nonce_str", Str(nonce));
      q, filled := Fill(q, data, filled, "partner_trade_no", Str(tradeNo));
      assert filled == PaymentDefaults(nonce, tradeNo);
    }

    /** enterprise_payment, over the certificate channel. Before signing,
        `check_name` is rewritten to the gateway's token for its truth. */
    method EnterprisePayment(certPath: string, keyPath: string, data: Fields, nonce: string, date: string,
                             shuffled: string, response: Response) returns (r: Outcome<Fields>)
      requires Shuffle(shuffled)
      ensures r.Rejected? <==> !EnterprisePaymentAccepts(data)
      ensures r.Rejected? ==> EnterprisePaymentError(data) == Some(r.error)
      ensures r.Sent? ==> r.call.url == TransfersUrl && r.call.channel == ClientCert(certPath, keyPath)
      ensures r.Sent? ==> "check_name" in data && SignedFrom(r.call.request,
        data["check_name" := CheckNameToken(data["check_name"])], PaymentDefaults(nonce, SerialNo(date, shuffled)))
      ensures r.Sent? ==> r.result == CheckCertReturn(response)
    {
      var e := EnterprisePaymentError(data);
      if e.Some? {
        return Rejected(e.value);
      }
      var tradeNo := SerialNo(date, shuffled);
      var q := PaymentFill(data, nonce, tradeNo);
      q := q["check_name" := CheckNameToken(q["check_name"])];
      SignDefaultSigned(q, data["check_name" := CheckNameToken(data["check_name"])], PaymentDefaults(nonce, tradeNo));
      q := SignDefault(q);
      var c := Call(TransfersUrl, ClientCert(certPath, keyPath), q);
      r := Sent(c, CheckCertReturn(response));
    }
  }
}
