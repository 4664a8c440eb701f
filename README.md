# WxPay request signing and building, in Dafny

This project models the core of a small Python client for the WeChat Pay
merchant gateway: the `WxPay` class of `wx_pay.py`. The model covers how the
client:

- signs a field mapping (`sign`) and verifies a signature (`check`);
- writes the flat `<xml>` envelope it posts (`to_xml`) and reads a reply back
  into a mapping (`to_dict`);
- answers a payment notification (`reply`);
- builds the request of each gateway operation: unified order,
  browser-side payment parameters, order query, close order, refund, refund
  query, bill download, red packets and enterprise payments.

For each operation the model states which fields it demands before sending,
and in what order it reports a missing one. It also states which defaults it
fills with `setdefault`, how the request is signed, and how the reply's
status fields turn into a result or an error.

The modules follow the program's structure:

| file | module | what it holds |
|---|---|---|
| `values.dfy` | `Values` | The values a Python caller puts in a parameter dict (text, integer, bool, None). Also their truthiness, their `str()` text and `setdefault`. |
| `ordering.dfy` | `Ordering` | Python's ordering of text keys, and the sorted key list `sorted(raw.keys())`. |
| `canonical.dfy` | `Canonical` | The signing string `k1=v1&k2=v2&key=<merchant key>`, and why it depends only on the fields that survive the filter. |
| `envelope.dfy` | `Envelope` | The envelope writer `to_xml` and the loop of `to_dict`. A reader for flat envelopes states what the written text means; the round trip is proved against it. |
| `gateway.dfy` | `Gateway` | Endpoints, channels, errors and the reading of reply status fields. Also the two rules every builder shares: required fields checked in order, and defaults filled with `setdefault`. |
| `randomness.dfy` | `Randomness` | `nonce_str` and `random_num`, with the random draws taken as inputs. |
| `client.dfy` | `Client` | The `WxPay` class itself: the signer, `check` on a mutable map, `reply`, and one builder per operation. |

Each builder returns an `Outcome`: either `Rejected(error)`, raised before
any network call, or `Sent(call, result)`. The call records the URL, the
channel (plain HTTPS, or HTTPS with the merchant's certificate and key
files) and the signed request mapping; `ToXml` of that mapping is the body
that is posted. The gateway's answer is an input to the builder.

Models of the source's inputs:

- MD5 is an uninterpreted function `md5Hex` fixed at construction.
- The caller's IP address, the generated nonces, the current time and date,
  and the shuffled digits are parameters.

Python's `**data` hands each builder a fresh copy of the caller's dict, so
builders work on map values. `check` pops `sign` from the caller's own dict,
so it works on a `FieldMap` object whose `entries` field it updates.

## Model

| member | source | states |
|---|---|---|
| Values.KeptIff | wx_pay.py:66-67 | A field survives the signer's filter exactly when it is neither None nor the empty string. Integers and bools survive as their `str()` text. |
| Values.IntTextRoundTrip | wx_pay.py:66 | `str()` of an integer loses nothing: the text reads back as the same integer. |
| Values.SetDefault | wx_pay.py:139-143 | `setdefault` adds the key. It never replaces the value already there, and sets the new value only when the key was absent. |
| Ordering.SortedKeys | wx_pay.py:66 | The sorted key list is strictly ascending and holds exactly the keys of the mapping. |
| Ordering.AscendingUnique | wx_pay.py:66 | Two ascending lists of the same keys are equal, so the sorted order is unique. |
| Ordering.BelowTotal | wx_pay.py:66 | Of two different keys one sorts before the other. |
| Canonical.CanonicalPairs | wx_pay.py:66-67 | The signed pairs are ascending by key. They are exactly the surviving fields, each with its text, and there are none only when no field survives. |
| Canonical.Joined | wx_pay.py:67 | The joined pairs are empty only when there are no pairs. Otherwise they start with the first pair written `k=v`. |
| Canonical.JoinedAppend | wx_pay.py:67 | One more pair is joined after an `&`. |
| Canonical.CanonicalText | wx_pay.py:66-67 | The canonical text is empty exactly when no field survives the filter. |
| Canonical.KeySuffix | wx_pay.py:68 | The signing string always ends with `&key=<key>`. That suffix is all of it exactly when no field survives. |
| Canonical.SameKeptSameCanonical | wx_pay.py:66-68 | Two mappings that keep the same fields with the same texts have the same signing string under every key. Build order and dropped fields do not matter. |
| Canonical.DroppedIgnored | wx_pay.py:67 | A field whose value is dropped signs as if it were absent. |
| Canonical.NothingKept | wx_pay.py:67-68 | With no surviving field the canonical text is empty and the signing string is `&key=<key>`. |
| Canonical.SingleKept | wx_pay.py:66-68 | With one surviving field the signing string is `k=<text>&key=<key>`. |
| Envelope.ToXml | wx_pay.py:78-82 | The text is the `<xml>` envelope holding one `<k>v</k>` element per key, in an iteration order that lists every key exactly once. With name keys and plain-text values, it decodes to the written fields. |
| Envelope.Element | wx_pay.py:81 | An element written for a name key and a text with no `<` reads back alone as that tag and text (None when the text is empty). |
| Envelope.EnvelopeText | wx_pay.py:82 | The reader strips exactly the `<xml>` frame the writer puts around the elements and reads the body inside it. |
| Envelope.ToDict | wx_pay.py:47-52 | The loop builds the mapping child by child, as `Collect` defines it. |
| Envelope.CollectKeys | wx_pay.py:50-51 | The keys of the mapping are exactly the children's tags. |
| Envelope.CollectLastWins | wx_pay.py:50-51 | A tag carries the text of its last child. An empty child reads as None. |
| Envelope.ReadOne | wx_pay.py:81 | One written element `<k>t</k>` (name tag, text with no `<`) reads back as the child `(k, TextOf(t))`, whose text is None when `t` is empty, followed by whatever comes after it. |
| Envelope.ReadWritten | wx_pay.py:78-82 | The written envelope reads back as one child per key, in the order written, each with its value's text. |
| Envelope.DecodeEnvelope | wx_pay.py:78-82 | With name keys and plain-text values, the envelope decodes to the same keys, each with its value's text (None when empty), whatever the write order. |
| Envelope.RoundTrip | wx_pay.py:78-82 | A mapping of non-empty plain texts decodes back to itself. |
| Gateway.CheckReturn | wx_pay.py:198-201 | The reply passes exactly when it is a mapping whose `return_code` is not FAIL, and then it is returned unchanged. FAIL raises with `return_msg` and nothing else does. A raw body or a missing `return_code` gives an error. |
| Gateway.CheckBusiness | wx_pay.py:147-151 | unified_order's reading passes exactly when the `return_code` check passes and `err_code_des` is absent or falsy, and then returns the reply. It raises with `err_code_des` exactly when that check passes and the field is truthy. Any `return_code` error is passed on unchanged. |
| Gateway.CheckCertReturn | wx_pay.py:96-99 | The certificate channel gives a parse error exactly on a body that is not XML. On a parsed reply it is the `return_code` check. |
| Gateway.BusinessOnlyAddsFailures | wx_pay.py:146-151 | unified_order's reading agrees with the `return_code` check, except on a successful reply with a truthy `err_code_des`, which it raises. |
| Gateway.TwoTierStatus | wx_pay.py:147-151 | A SUCCESS reply carrying a business error is an error only for unified_order. |
| Gateway.ChannelsAgreeOnXml | wx_pay.py:96-99 | Both channels read a parsed reply alike. On a body that is not XML, the plain channel hands the raw text on (and indexing it fails), while the certificate channel raises a parse error. |
| Gateway.FirstMissing | wx_pay.py:121-128 | A run of required-field checks finds nothing exactly when every field is present. Otherwise it names the first absent field. |
| Gateway.FirstAbsentUnique | wx_pay.py:121-128 | The first absent field is unique. |
| Gateway.FilledInMeaning | wx_pay.py:139-143 | After the setdefault run every caller value is unchanged, every default the caller lacked is added, and no other key appears. |
| Gateway.Fill | wx_pay.py:139 | One setdefault extends the filled defaults by one key. |
| Gateway.SignSlot | wx_pay.py:144 | The final `setdefault("sign", …)` keeps a caller's `sign`. Otherwise it adds the signature and changes nothing else. |
| Gateway.UnifiedOrderError | wx_pay.py:121-137 | Rejected exactly when a demand is unmet. The error is the first missing required field, then `openid` for JSAPI, then `product_id` for NATIVE, then `spbill_create_ip` when no caller address is known. |
| Gateway.RefundError | wx_pay.py:240-245 | Rejected exactly when both order ids are missing or a fee is missing. The ids are checked first, then `total_fee`, then `refund_fee`. |
| Gateway.EnterprisePaymentError | wx_pay.py:377-388 | Rejected exactly when a demand is unmet. The order is `openid`, `check_name`, then `re_user_name` when `check_name` is truthy, then `amount`, `desc`, `spbill_create_ip`. |
| Randomness.NonceStr | wx_pay.py:38-40 | The nonce has the requested length, and each character is the alphabet character at the drawn position. |
| Randomness.RandomNum | wx_pay.py:55-58 | At most ten distinct decimal digits, exactly `length` of them when fewer than ten are asked for. |
| Client.Upper | wx_pay.py:69 | Upper-casing keeps the length, shifts every lower-case letter to upper case and leaves every other character alone. |
| Client.CheckNameToken | wx_pay.py:396 | The token is FORCE_CHECK exactly when `check_name` is truthy, and NO_CHECK otherwise. |
| Client.ReplyFields | wx_pay.py:102-103 | The acknowledgement holds exactly `return_code` and `return_msg`. The code is SUCCESS exactly when `ok`, the message is the value the caller gave (any value, not only text), and the gateway's `return_code` check passes on it exactly when `ok`. |
| Client.ReplyDecodes | wx_pay.py:101-103 | The acknowledgement decodes to its code and the message's `str.format` text, in either write order (so a None message reads back as the text "None"). A message whose text is empty reads as None. |
| Client.WxPay.constructor | wx_pay.py:26-31 | The app id, merchant id, merchant key and notify URL are stored unchanged as constants, and the digest `md5Hex` is fixed for the lifetime of the client. |
| Client.WxPay.SignDependsOnlyOnKept | wx_pay.py:66-69 | Two mappings with the same surviving fields and texts have the same signature. |
| Client.WxPay.Sign | wx_pay.py:60-69 | The signature is the digest of the signing string, upper-cased. It has the digest's length and no lower-case letter. Each lower-case letter of the digest becomes its upper-case form, and every other character is kept. |
| Client.WxPay.SignIgnoresDropped | wx_pay.py:67 | A None or empty field signs as if absent. |
| Client.WxPay.SignKeepsZeroAndFalse | wx_pay.py:66-67 | 0 and False are not dropped: they sign as the texts "0" and "False". |
| Client.WxPay.SignOfNothing | wx_pay.py:68-69 | With nothing surviving, the signature is the digest of `&key=<merchant key>`. |
| Client.WxPay.CheckResult | wx_pay.py:71-76 | Without `sign` the answer is a KeyError. Otherwise it says whether `sign` equals the signature of the remaining fields. |
| Client.WxPay.CheckAcceptsSigned | wx_pay.py:71-76 | A mapping carrying its own signature passes. |
| Client.WxPay.CheckRejectsOther | wx_pay.py:71-76 | Any other signature text fails. |
| Client.WxPay.Check | wx_pay.py:71-76 | The caller's map loses `sign` and keeps every other entry, and the answer is `CheckResult` of the map as it was. |
| Client.WxPay.SignDefault | wx_pay.py:144 | The request ends up with a `sign`. A caller's `sign` is left as it is; otherwise the signature of the rest is added and nothing else changes. |
| Client.WxPay.SignDefaultSigned | wx_pay.py:139-144 | A request filled from the caller's fields and the defaults, then signed last, is signed over everything except `sign`. |
| Client.WxPay.SignedRequestChecks | wx_pay.py:144 | A request signed by the client passes `check`. |
| Client.WxPay.Reply | wx_pay.py:101-103 | The text is the envelope of the two acknowledgement fields. When the message's text is plain, it decodes to the code and that text. |
| Client.WxPay.UnifiedOrderFill | wx_pay.py:139-143 | `appid`, `mch_id`, `notify_url`, `nonce_str` and `spbill_create_ip` are filled in, and caller values win. |
| Client.WxPay.UnifiedOrder | wx_pay.py:105-152 | Rejected exactly when the validation fails, with its error. Otherwise one plain call to the unified-order URL, whose request is the filled and signed mapping, and whose result is the reply read with the business check. |
| Client.WxPay.JsOrder | wx_pay.py:166-168 | trade_type JSAPI and a generated out_trade_no are added unless the caller gave them. |
| Client.WxPay.JsParams | wx_pay.py:170-177 | The browser gets exactly `package` (`prepay_id=…`), `appId`, `timeStamp`, `nonceStr` and `sign`. Put `signType` back and the map passes `check`. |
| Client.WxPay.JsPayApi | wx_pay.py:154-177 | Validation and call are those of the unified order for the JSAPI order. A reply error is passed on. A missing `prepay_id` is a KeyError, and otherwise the result is the browser parameters for it. |
| Client.WxPay.QueryFill | wx_pay.py:193-195 | `appid`, `mch_id` and `nonce_str` are filled in, and caller values win. |
| Client.WxPay.OrderQuery | wx_pay.py:179-201 | Rejected exactly when both order ids are missing. Otherwise a plain signed call to the order-query URL, with the `return_code` check. |
| Client.WxPay.CloseOrder | wx_pay.py:203-222 | Always sent: the request is exactly the order id and the merchant fields plus a signature that passes `check`. |
| Client.WxPay.RefundFill | wx_pay.py:246-252 | A generated `out_refund_no`, `appid`, `mch_id`, `op_user_id` (the merchant id) and `nonce_str` are filled in, and caller values win. |
| Client.WxPay.Refund | wx_pay.py:224-258 | Rejected exactly as `RefundError` says. Otherwise a signed call over the certificate channel to the refund URL. |
| Client.WxPay.RefundQuery | wx_pay.py:260-288 | Rejected exactly when all four ids are missing. Otherwise a plain signed call to the refund-query URL. |
| Client.WxPay.DownloadBill | wx_pay.py:290-310 | Always sent. `bill_type` is SUCCESS unless a truthy one is given. The request passes `check`, and the reply is handed back unread. |
| Client.WxPay.SerialNo | wx_pay.py:348-350 | The serial is the merchant id, then the date, then ten digits. |
| Client.WxPay.RedPackFill | wx_pay.py:345-352 | `wxappid`, `mch_id`, `nonce_str`, `mch_billno`, `total_num` 1 and `scene_id` PRODUCT_4 are filled in, and caller values win. |
| Client.WxPay.SendRedPack | wx_pay.py:312-358 | Rejected exactly when a required field is missing, naming the first one. Otherwise a signed certificate-channel call whose serial is the merchant serial. |
| Client.WxPay.PaymentFill | wx_pay.py:390-395 | `mch_appid`, `mchid`, `nonce_str` and `partner_trade_no` are filled in, and caller values win. |
| Client.WxPay.EnterprisePayment | wx_pay.py:360-402 | Rejected exactly when the validation fails, with its error. Otherwise `check_name` is replaced by its token before signing; the call goes over the certificate channel to the transfers URL. |

## Left out

- HTTP transport: the `urllib2` opener, `requests.post`, the 20-second
  timeout and the reading of an HTTP error's body (`fetch`,
  `fetch_with_ssl`) are not modelled. The gateway's reply is an input
  (`Response`), and a `Call` records what is posted; its body is `ToXml` of
  its request.
- The XML library: it is replaced by a reader for the flat envelopes the
  client writes. Entities, escaping, attributes and nesting are not
  modelled. `to_xml` escapes nothing, so the round trip is stated only for
  element-name keys and for plain-text values (`PlainText`): no `<` or
  `&`, no `]]>`, no carriage return (an XML parser turns it into a line
  feed) and no character XML forbids, such as C0 controls other than tab,
  line feed and carriage return. Outside that domain the flat reader accepts
  some texts a real parser rejects, and the model says nothing about what
  the client reads then.
- MD5 is left uninterpreted (`md5Hex`). Only the digest's upper-casing is
  modelled.
- `to_utf8` and unicode objects: text is a sequence of characters with no
  encoding.
- Values.KeptIff: `Int` stands for a Python 2 `int` only. A `long` is not
  modelled: `isinstance(x, (int, float))` is false for it, so `sign` drops
  `0L` and raises a TypeError at the join on any other long.
- Float values: the `float` branch of `sign`'s conversion is not modelled,
  because `Value` has no floating-point case.
- `user_ip_address` reads the Flask request; the model takes the caller
  address as the parameter `userIp` (Null outside a request).
- Time and randomness are parameters:
  - `time.time()` and `strftime` become `timestamp` and `date`.
  - `random.choice` becomes the positions `draws`.
  - `random.shuffle` becomes a `shuffled` string of the ten digits.
- Exception messages: errors carry the field names, not the source's
  message texts, and every failure is one `Error` value rather than an
  exception class.
- example.py, a Flask application that calls the client, is not part of
  this model.
- Randomness.RandomNum: a shuffle is characterised by its result (each
  digit once, `Shuffle`), not as a permutation of the digit list.
- Randomness.NonceStr: the characters are stated to be alphabet entries.
  There is no separate statement that they are ASCII letters and digits.
- Client.WxPay.UnifiedOrder (and every other builder): the nonce is taken
  as any string and is not tied to the result of `NonceStr`.
