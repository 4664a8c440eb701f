/** The gateway's side of a call: endpoints, what a request is sent over, what
    comes back, the errors the client raises, and how it reads the status
    fields of a reply. Also the two request-building rules every operation
    shares: required fields checked in order, and defaults filled with
    setdefault. */
module Gateway {
  import opened Values

  const UnifiedOrderUrl := "https://api.mch.weixin.qq.com/pay/unifiedorder"
  const OrderQueryUrl := "https://api.mch.weixin.qq.com/pay/orderquery"
  const CloseOrderUrl := "https://api.mch.weixin.qq.com/pay/closeorder"
  const RefundUrl := "https://api.mch.weixin.qq.com/secapi/pay/refund"
  const RefundQueryUrl := "https://api.mch.weixin.qq.com/pay/refundquery"
  const DownloadBillUrl := "https://api.mch.weixin.qq.com/pay/downloadbill"
  const SendRedPackUrl := "https://api.mch.weixin.qq.com/mmpaymkttransfers/sendredpack"
  const TransfersUrl := "https://api.mch.weixin.qq.com/mmpaymkttransfers/promotion/transfers"

  /** A reply body as the transport hands it on: the root's children read
      into a mapping, or the raw body when it is not XML. */
  datatype Response = Parsed(fields: Fields) | Unparsed(body: string)

  /** Plain HTTPS, or HTTPS authenticated with the merchant's certificate and key files. */
  datatype Channel = Plain | ClientCert(certPath: string, keyPath: string)

  /** One POST: where it goes, over what, and the field mapping whose
      envelope (ToXml) is its body. */
  datatype Call = Call(url: string, channel: Channel, request: Fields)

  datatype Error =
    | MissingField(name: string)        // a required field is absent
    | MissingConditional(name: string)  // a field required only under a condition is absent
    | MissingAnyOf(names: seq<string>)  // none of several alternative identifiers is present
    | GatewayFailure(message: Value)    // return_code is FAIL; carries return_msg
    | BusinessFailure(message: Value)   // err_code_des is set; carries it
    | KeyError(key: string)             // a field the client reads is absent
    | NotAMapping                       // a raw reply body indexed as if it were a mapping
    | ParseError                        // a certificate-channel reply that is not XML

  datatype Result<+T> = Ok(value: T) | Err(error: Error)

  /** An operation either raises before any network call, or sends exactly
      one call and then reads the reply into a result. */
  datatype Outcome<+T> = Rejected(error: Error) | Sent(call: Call, result: Result<T>)

  /** `raw["return_code"] == "FAIL"`, raising with `raw["return_msg"]`, over
      what a plain fetch returned. */
  function CheckReturn(raw: Response): (r: Result<Fields>)
    ensures r.Ok? <==> raw.Parsed? && "return_code" in raw.fields && raw.fields["return_code"] != Str("FAIL")
    ensures r.Ok? ==> r.value == raw.fields
    ensures r.Err? && r.error.GatewayFailure? <==>
      raw.Parsed? && "return_code" in raw.fields && raw.fields["return_code"] == Str("FAIL") && "return_msg" in raw.fields
    ensures r.Err? && r.error.GatewayFailure? ==> r.error.message == raw.fields["return_msg"]
  {
    match raw
    case Unparsed(_) => Err(NotAMapping)
    case Parsed(f) =>
      if "return_code" !in f then Err(KeyError("return_code"))
      else if f["return_code"] == Str("FAIL") then
        if "return_msg" in f then Err(GatewayFailure(f["return_msg"])) else Err(KeyError("return_msg"))
      else Ok(f)
  }

  /** unified_order's reading: the return-code check, then a truthy
      `err_code_des` raises with its text. */
  function CheckBusiness(raw: Response): (r: Result<Fields>)
    ensures r.Ok? <==> CheckReturn(raw).Ok? && !("err_code_des" in raw.fields && Truthy(raw.fields["err_code_des"]))
    ensures r.Ok? ==> r.value == raw.fields
    ensures r.Err? && r.error.BusinessFailure? <==>
      CheckReturn(raw).Ok? && "err_code_des" in raw.fields && Truthy(raw.fields["err_code_des"])
    ensures r.Err? && r.error.BusinessFailure? ==> r.error.message == raw.fields["err_code_des"]
    ensures CheckReturn(raw).Err? ==> r == CheckReturn(raw)
  {
    match CheckReturn(raw)
    case Err(e) => Err(e)
    case Ok(f) =>
      if "err_code_des" in f && Truthy(f["err_code_des"]) then Err(BusinessFailure(f["err_code_des"]))
      else Ok(f)
  }

  /** The certificate channel does not fall back on the raw body: a reply
      that is not XML raises ParseError, before any status is read. */
  function CheckCertReturn(raw: Response): (r: Result<Fields>)
    ensures r == Err(ParseError) <==> raw.Unparsed?
    ensures raw.Parsed? ==> r == CheckReturn(raw)
  {
    if raw.Unparsed? then Err(ParseError) else CheckReturn(raw)
  }

  /** The business check only adds failures: it agrees with the return-code
      check except on a successful reply with a truthy `err_code_des`. */
  lemma BusinessOnlyAddsFailures(raw: Response)
    ensures CheckReturn(raw).Err? ==> CheckBusiness(raw) == CheckReturn(raw)
    ensures CheckBusiness(raw).Ok? ==> CheckBusiness(raw) == CheckReturn(raw)
    ensures CheckBusiness(raw) != CheckReturn(raw) <==>
      CheckReturn(raw).Ok? && "err_code_des" in raw.fields && Truthy(raw.fields["err_code_des"])
  {
  }

  /** A transport-level success carrying a business error: only unified_order
      raises on it, every other operation hands the reply back. */
  lemma TwoTierStatus(f: Fields, msg: Value)
    requires "return_code" in f && f["return_code"] == Str("SUCCESS")
    requires "err_code_des" in f && f["err_code_des"] == msg && Truthy(msg)
    ensures CheckReturn(Parsed(f)) == Ok(f)
    ensures CheckCertReturn(Parsed(f)) == Ok(f)
    ensures CheckBusiness(Parsed(f)) == Err(BusinessFailure(msg))
  {
  }

  /** The two channels read a parsed reply alike and differ on a raw one. */
  lemma ChannelsAgreeOnXml(raw: Response)
    ensures raw.Parsed? ==> CheckCertReturn(raw) == CheckReturn(raw)
    ensures raw.Unparsed? ==> CheckReturn(raw) == Err(NotAMapping) && CheckCertReturn(raw) == Err(ParseError)
  {
  }

  /** `n` is the first of `names` that `data` lacks. */
  ghost predicate FirstAbsent(data: Fields, names: seq<string>, n: string)
  {
    exists i :: 0 <= i < |names| && names[i] == n && n !in data && forall j :: 0 <= j < i ==> names[j] in data
  }

  lemma FirstAbsentUnique(data: Fields, names: seq<string>)
    ensures forall a, b :: FirstAbsent(data, names, a) && FirstAbsent(data, names, b) ==> a == b
  {
    forall a, b | FirstAbsent(data, names, a) && FirstAbsent(data, names, b)
      ensures a == b
    {
      var i :| 0 <= i < |names| && names[i] == a && a !in data && forall j :: 0 <= j < i ==> names[j] in data;
      var k :| 0 <= k < |names| && names[k] == b && b !in data && forall j :: 0 <= j < k ==> names[j] in data;
      assert !(i < k) && !(k < i);
    }
  }

  predicate Present(data: Fields, names: seq<string>)
  {
    forall i :: 0 <= i < |names| ==> names[i] in data
  }

  /** A run of `if name not in data: raise` checks: the first name that is
      absent, or None when all are present. */
  function FirstMissing(data: Fields, names: seq<string>): (r: Option<string>)
    ensures r.None? <==> Present(data, names)
    ensures r.Some? ==> FirstAbsent(data, names, r.value)
  {
    if names == [] then None
    else if names[0] !in data then Some(names[0])
    else
      var r := FirstMissing(data, names[1..]);
      assert forall i :: 1 <= i < |names| ==> names[i] == names[1..][i - 1];
      assert r.Some? ==> FirstAbsent(data, names, r.value) by {
        if r.Some? {
          var i :| 0 <= i < |names| - 1 && names[1..][i] == r.value && r.value !in data
            && forall j :: 0 <= j < i ==> names[1..][j] in data;
          assert names[i + 1] == r.value;
        }
      }
      r
  }

  /** What a run of setdefault calls leaves: the defaults, overridden by
      everything the caller supplied (the right operand of `+` wins). */
  ghost predicate FilledIn(q: Fields, data: Fields, defaults: Fields)
  {
    q == defaults + data
  }

  /** A caller's value is never replaced, every default the caller did not
      supply is added, and nothing else is. */
  lemma FilledInMeaning(q: Fields, data: Fields, defaults: Fields)
    requires FilledIn(q, data, defaults)
    ensures q.Keys == data.Keys + defaults.Keys
    ensures forall k :: k in data ==> q[k] == data[k]
    ensures forall k :: k in defaults && k !in data ==> q[k] == defaults[k]
  {
  }

  const UnifiedOrderRequired := ["out_trade_no", "body", "total_fee", "trade_type"]
  const OrderIds := ["out_trade_no", "transaction_id"]
  const RefundIds := ["out_refund_no", "out_trade_no", "transaction_id", "refund_id"]
  const RefundRequired := ["total_fee", "refund_fee"]
  const RedPackRequired := ["send_name", "re_openid", "total_amount", "wishing", "client_ip", "act_name", "remark"]
  const PaymentHead := ["openid", "check_name"]
  const PaymentTail := ["amount", "desc", "spbill_create_ip"]

  /** One `data.setdefault(k, v)` on a request being completed: the
      defaults filled in so far grow by `k`. */
  method Fill(q: Fields, ghost data: Fields, ghost defaults: Fields, k: string, v: Value)
    returns (r: Fields, ghost filled: Fields)
    requires FilledIn(q, data, defaults) && k !in defaults
    ensures filled == defaults[k := v]
    ensures FilledIn(r, data, filled)
  {
    r := SetDefault(q, k, v);
    filled := defaults[k := v];
  }

  /** Three setdefault calls in a row on distinct new keys. It changes nothing
      that three Fill calls would not; longer runs of setdefault are split
      into runs of three only to keep each proof small. */
  method Fill3(q: Fields, ghost data: Fields, ghost defaults: Fields,
               k1: string, v1: Value, k2: string, v2: Value, k3: string, v3: Value)
    returns (r: Fields, ghost filled: Fields)
    requires FilledIn(q, data, defaults)
    requires k1 !in defaults && k2 !in defaults && k3 !in defaults
    requires k1 != k2 && k1 != k3 && k2 != k3
    ensures filled == defaults[k1 := v1][k2 := v2][k3 := v3]
    ensures FilledIn(r, data, filled)
  {
    r, filled := Fill(q, data, defaults, k1, v1);
    r, filled := Fill(r, data, filled, k2, v2);
    r, filled := Fill(r, data, filled, k3, v3);
  }

  /** `data.setdefault("sign", sig)` as the last step of a request built
      from `data` and `defaults`: a caller's `sign` stays, otherwise `sig`
      is added and nothing else changes. */
  lemma SignSlot(q: Fields, data: Fields, defaults: Fields, sig: Value)
    requires "sign" !in defaults && FilledIn(q, data, defaults)
    ensures var r := SetDefault(q, "sign", sig);
      && "sign" in r
      && FilledIn(r - {"sign"}, data - {"sign"}, defaults)
      && ("sign" in data ==> r["sign"] == data["sign"])
      && ("sign" !in data ==> r - {"sign"} == q && r["sign"] == sig)
  {
    var r := SetDefault(q, "sign", sig);
    if "sign" in data {
      assert r == q;
    } else {
      assert data - {"sign"} == data;
      assert r - {"sign"} == q;
    }
  }

  /** `data["sign"] = sig` on a mapping without a signature: the signature
      is added and nothing else changes. */
  lemma SignAssigned(q: Fields, sig: Value)
    requires "sign" !in q
    ensures "sign" in q["sign" := sig] && q["sign" := sig]["sign"] == sig
    ensures q["sign" := sig] - {"sign"} == q
  {
  }

  /** Everything unified_order demands before it sends. */
  predicate UnifiedOrderAccepts(data: Fields, userIp: Value)
  {
    && "out_trade_no" in data && "body" in data && "total_fee" in data && "trade_type" in data
    && (data["trade_type"] == Str("JSAPI") ==> "openid" in data)
    && (data["trade_type"] == Str("NATIVE") ==> "product_id" in data)
    && (Truthy(userIp) || "spbill_create_ip" in data)
  }

  /** The error unified_order raises before sending: the first required
      field missing, then `openid` for JSAPI, `product_id` for NATIVE, and
      `spbill_create_ip` when no caller address is known. */
  function UnifiedOrderError(data: Fields, userIp: Value): (r: Option<Error>)
    ensures r.None? <==> UnifiedOrderAccepts(data, userIp)
    ensures forall n :: FirstAbsent(data, UnifiedOrderRequired, n) ==> r == Some(MissingField(n))
    ensures (Present(data, UnifiedOrderRequired) && "trade_type" in data && data["trade_type"] == Str("JSAPI")
             && "openid" !in data) ==> r == Some(MissingConditional("openid"))
    ensures (Present(data, UnifiedOrderRequired) && "trade_type" in data && data["trade_type"] == Str("NATIVE")
             && "product_id" !in data) ==> r == Some(MissingConditional("product_id"))
    ensures (Present(data, UnifiedOrderRequired) && "trade_type" in data
             && (data["trade_type"] == Str("JSAPI") ==> "openid" in data)
             && (data["trade_type"] == Str("NATIVE") ==> "product_id" in data)
             && !Truthy(userIp) && "spbill_create_ip" !in data) ==> r == Some(MissingConditional("spbill_create_ip"))
  {
    FirstAbsentUnique(data, UnifiedOrderRequired);
    assert UnifiedOrderRequired[0] == "out_trade_no" && UnifiedOrderRequired[1] == "body";
    assert UnifiedOrderRequired[2] == "total_fee" && UnifiedOrderRequired[3] == "trade_type";
    match FirstMissing(data, UnifiedOrderRequired)
    case Some(n) => Some(MissingField(n))
    case None =>
      if data["trade_type"] == Str("JSAPI") && "openid" !in data then Some(MissingConditional("openid"))
      else if data["trade_type"] == Str("NATIVE") && "product_id" !in data then Some(MissingConditional("product_id"))
      else if !Truthy(userIp) && "spbill_create_ip" !in data then Some(MissingConditional("spbill_create_ip"))
      else None
  }

  /** The error refund raises before sending: neither order id, then the
      first of `total_fee`, `refund_fee` missing. */
  function RefundError(data: Fields): (r: Option<Error>)
    ensures r.None? <==> ("out_trade_no" in data || "transaction_id" in data) && Present(data, RefundRequired)
    ensures "out_trade_no" !in data && "transaction_id" !in data ==> r == Some(MissingAnyOf(OrderIds))
    ensures "out_trade_no" in data || "transaction_id" in data ==>
      forall n :: FirstAbsent(data, RefundRequired, n) ==> r == Some(MissingField(n))
  {
    FirstAbsentUnique(data, RefundRequired);
    assert RefundRequired[0] == "total_fee" && RefundRequired[1] == "refund_fee";
    if "out_trade_no" !in data && "transaction_id" !in data then Some(MissingAnyOf(OrderIds))
    else
      match FirstMissing(data, RefundRequired)
      case Some(n) => Some(MissingField(n))
      case None => None
  }

  /** Everything enterprise_payment demands before it sends. */
  predicate EnterprisePaymentAccepts(data: Fields)
  {
    && "openid" in data && "check_name" in data
    && (Truthy(data["check_name"]) ==> "re_user_name" in data)
    && "amount" in data && "desc" in data && "spbill_create_ip" in data
  }

  /** The error enterprise_payment raises before sending: the conditional
      `re_user_name` check sits between the required-field checks, so it
      wins over a missing `amount`, `desc` or `spbill_create_ip`. */
  function EnterprisePaymentError(data: Fields): (r: Option<Error>)
    ensures r.None? <==> EnterprisePaymentAccepts(data)
    ensures forall n :: FirstAbsent(data, PaymentHead, n) ==> r == Some(MissingField(n))
    ensures "openid" in data && "check_name" in data && Truthy(data["check_name"]) && "re_user_name" !in data
      ==> r == Some(MissingConditional("re_user_name"))
    ensures "openid" in data && "check_name" in data && (Truthy(data["check_name"]) ==> "re_user_name" in data)
      ==> forall n :: FirstAbsent(data, PaymentTail, n) ==> r == Some(MissingField(n))
  {
    FirstAbsentUnique(data, PaymentHead);
    FirstAbsentUnique(data, PaymentTail);
    assert PaymentHead[0] == "openid" && PaymentHead[1] == "check_name";
    assert PaymentTail[0] == "amount" && PaymentTail[1] == "desc" && PaymentTail[2] == "spbill_create_ip";
    match FirstMissing(data, PaymentHead)
    case Some(n) => Some(MissingField(n))
    case None =>
      if Truthy(data["check_name"]) && "re_user_name" !in data then Some(MissingConditional("re_user_name"))
      else
        match FirstMissing(data, PaymentTail)
        case Some(n) => Some(MissingField(n))
        case None => None
  }
}
