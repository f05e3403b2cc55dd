/** Reconciliation of asynchronous callbacks: parsing each payload kind, extracting the
    named metadata items, the result-code messages, the date reformatting, the IP allow
    list, the order in which registered handlers run for an STK callback, and the
    two-field acknowledgment. Handlers are code outside the model: each is a function
    from what it is given to whether it returned or raised. */
module Callback {
  import opened Wrappers
  import opened Errors
  import opened Text

  // ---------------------------------------------------------------------------
  // JSON leaf values

  /** A leaf value of a callback body. A float carries the spelling `str` gives it. */
  datatype Value =
    | JNull
    | JBool(b: bool)
    | JInt(i: int)
    | JFloat(x: real, repr: string)
    | JString(s: string)

  /** `str(v)`. */
  function Str(v: Value): string {
    match v
    case JNull => "None"
    case JBool(b) => if b then "True" else "False"
    case JInt(i) => IntToString(i)
    case JFloat(_, repr) => repr
    case JString(s) => s
  }

  /** `float(v)`. */
  function FloatOf(v: Value): Result<real, Exception> {
    match v
    case JNull => Failure(TypeError("float() argument must be a string or a real number, not 'NoneType'"))
    case JBool(b) => Success(if b then 1.0 else 0.0)
    case JInt(i) => Success(i as real)
    case JFloat(x, _) => Success(x)
    case JString(s) =>
      match ParseDecimal(s)
      case Some(x) => Success(x)
      case None => Failure(ValueError("could not convert string to float: '" + s + "'"))
  }

  /** The int a value is equal to (and hashes as) under Python's `==`, if any: True is 1,
      False is 0 and an integral float is that integer. */
  function IntEqual(v: Value): Option<int> {
    match v
    case JBool(b) => Some(if b then 1 else 0)
    case JInt(i) => Some(i)
    case JFloat(x, _) => if x.Floor as real == x then Some(x.Floor) else None
    case _ => None
  }

  /** `result_code == 0`. */
  predicate IsZero(code: Value) {
    IntEqual(code) == Some(0)
  }

  /** Python truthiness of an optional string. */
  function Or(message: Option<string>, default: string): string {
    if message.Some? && message.value != "" then message.value else default
  }

  // ---------------------------------------------------------------------------
  // Result-code messages and dates

  const ErrorMessages: map<int, string> := map[
    0 := "Success",
    1 := "Insufficient funds in M-Pesa account",
    17 := "User cancelled the transaction",
    26 := "System internal error",
    1001 := "Unable to lock subscriber, a transaction is already in process",
    1019 := "Transaction expired. No response from user",
    1032 := "Request cancelled by user",
    1037 := "Timeout in sending PIN request",
    2001 := "Wrong PIN entered",
    9999 := "Request cancelled by user"
  ]

  const UnknownCodePrefix := "Transaction failed with code: "

  /** The table's message for a known code, else a message naming the code. */
  function GetErrorMessage(code: Value): (m: string)
    ensures m != ""
  {
    var k := IntEqual(code);
    if k.Some? && k.value in ErrorMessages then ErrorMessages[k.value]
    else UnknownCodePrefix + Str(code)
  }

  /** For an int code: the table entry when listed, else the prefix followed by the code
      in decimal. */
  lemma GetErrorMessageOfInt(c: int)
    ensures c in ErrorMessages ==> GetErrorMessage(JInt(c)) == ErrorMessages[c]
    ensures c !in ErrorMessages ==> GetErrorMessage(JInt(c)) == UnknownCodePrefix + IntToString(c)
    ensures c !in ErrorMessages ==> GetErrorMessage(JInt(c)) !in ErrorMessages.Values
  {
    if c !in ErrorMessages {
      var m := GetErrorMessage(JInt(c));
      assert m[..|UnknownCodePrefix|] == UnknownCodePrefix;
      assert m[0] == 'T' && m[12] == 'f';
      forall k | k in ErrorMessages ensures ErrorMessages[k] != m {
      }
    }
  }

  /** Unlisted codes get distinct messages, so the message identifies the code. */
  lemma UnknownCodesDistinguished(a: int, b: int)
    requires a !in ErrorMessages && b !in ErrorMessages
    requires GetErrorMessage(JInt(a)) == GetErrorMessage(JInt(b))
    ensures a == b
  {
    var ma, mb := GetErrorMessage(JInt(a)), GetErrorMessage(JInt(b));
    assert ma[|UnknownCodePrefix|..] == IntToString(a);
    assert mb[|UnknownCodePrefix|..] == IntToString(b);
    IntToStringInjective(a, b);
  }

  /** Codes equal to a listed int under Python's `==` share its message. */
  lemma ErrorMessageExamples()
    ensures GetErrorMessage(JInt(1032)) == "Request cancelled by user"
    ensures GetErrorMessage(JInt(9999)) == GetErrorMessage(JInt(1032))
    ensures GetErrorMessage(JBool(true)) == "Insufficient funds in M-Pesa account"
    ensures GetErrorMessage(JFloat(2001.0, "2001.0")) == "Wrong PIN entered"
    ensures GetErrorMessage(JString("1032")) == "Transaction failed with code: 1032"
  {
  }

  function Min(a: int, b: int): int {
    if a <= b then a else b
  }

  /** `s[i:j]` with Python's clamping of out-of-range bounds. */
  function Slice(s: string, i: nat, j: nat): (r: string)
    requires i <= j
    ensures |r| == Min(|s|, j) - Min(|s|, i)
    ensures |s| >= j ==> r == s[i..j]
  {
    if |s| <= i then [] else if |s| <= j then s[i..] else s[i..j]
  }

  /** `YYYYMMDDHHMMSS` to `YYYY-MM-DDTHH:MM:SS`; a shorter input gives shorter fields
      but always all five separators. */
  function FormatTransactionDate(s: string): (r: string)
    ensures |r| == Min(|s|, 14) + 5
  {
    Slice(s, 0, 4) + "-" + Slice(s, 4, 6) + "-" + Slice(s, 6, 8) + "T"
      + Slice(s, 8, 10) + ":" + Slice(s, 10, 12) + ":" + Slice(s, 12, 14)
  }

  /** The 14 characters of a 19-character timestamp that are not separators. */
  function StripSeparators(r: string): string
    requires |r| == 19
  {
    r[0..4] + r[5..7] + r[8..10] + r[11..13] + r[14..16] + r[17..19]
  }

  /** Six fields joined by the five separators come back out of StripSeparators. */
  lemma JoinedFields(a: string, b: string, c: string, d: string, e: string, f: string)
    requires |a| == 4 && |b| == 2 && |c| == 2 && |d| == 2 && |e| == 2 && |f| == 2
    ensures var r := a + "-" + b + "-" + c + "T" + d + ":" + e + ":" + f;
      && |r| == 19
      && r[4] == '-' && r[7] == '-' && r[10] == 'T' && r[13] == ':' && r[16] == ':'
      && StripSeparators(r) == a + b + c + d + e + f
  {
    var r := a + "-" + b + "-" + c + "T" + d + ":" + e + ":" + f;
    assert r[0..4] == a && r[5..7] == b && r[8..10] == c;
    assert r[11..13] == d && r[14..16] == e && r[17..19] == f;
  }

  /** On an input of at least 14 characters the result has its separators at fixed
      positions, and removing them gives back the first 14 characters. */
  lemma FormatTransactionDateRoundTrip(s: string)
    requires |s| >= 14
    ensures var r := FormatTransactionDate(s);
      && |r| == 19
      && r[4] == '-' && r[7] == '-' && r[10] == 'T' && r[13] == ':' && r[16] == ':'
      && StripSeparators(r) == s[..14]
  {
    JoinedFields(s[0..4], s[4..6], s[6..8], s[8..10], s[10..12], s[12..14]);
    assert s[..14] == s[0..4] + s[4..6] + s[6..8] + s[8..10] + s[10..12] + s[12..14];
  }

  /** Hence distinct 14-character timestamps are formatted differently. */
  lemma FormatTransactionDateInjective(s: string, t: string)
    requires |s| == 14 && |t| == 14
    requires FormatTransactionDate(s) == FormatTransactionDate(t)
    ensures s == t
  {
    FormatTransactionDateRoundTrip(s);
    FormatTransactionDateRoundTrip(t);
    assert s == s[..14] && t == t[..14];
  }

  // ---------------------------------------------------------------------------
  // Metadata extraction

  /** One `{Name|Key, Value}` entry; a missing or non-string name is None, a missing
      value is JNull. */
  datatype Item = Item(name: Option<string>, value: Value)

  /** A `CallbackMetadata` or `ResultParameters` object; its list is None when the
      `Item` / `ResultParameter` key is absent, which reads as an empty list. */
  datatype Section = Section(items: Option<seq<Item>>)

  function SectionItems(s: Section): seq<Item> {
    s.items.GetOr([])
  }

  /** How an extracted value is converted before it is stored. */
  datatype Conversion = ToFloat | ToStr | ToDate

  /** An extracted value: a float field or a string field. */
  datatype Field = Amount(amount: real) | Textual(text: string)

  function Convert(c: Conversion, v: Value): Result<Field, Exception> {
    match c
    case ToFloat =>
      var x :- FloatOf(v);
      Success(Amount(x))
    case ToStr => Success(Textual(Str(v)))
    case ToDate => Success(Textual(FormatTransactionDate(Str(v))))
  }

  /** The names an extraction loop recognises. */
  predicate Relevant(item: Item, schema: map<string, Conversion>) {
    item.name.Some? && item.name.value in schema
  }

  /** The extraction loop as a left fold: each recognised item overwrites its field;
      the first conversion that raises aborts the parse. */
  function Project(items: seq<Item>, schema: map<string, Conversion>, acc: map<string, Field>): Result<map<string, Field>, Exception>
    decreases |items|
  {
    if items == [] then Success(acc)
    else if Relevant(items[0], schema) then
      var name := items[0].name.value;
      var f :- Convert(schema[name], items[0].value);
      Project(items[1..], schema, acc[name := f])
    else Project(items[1..], schema, acc)
  }

  /** The value of the last item carrying the given name. */
  function LastValue(items: seq<Item>, name: string): Option<Value>
    decreases |items|
  {
    if items == [] then None
    else match LastValue(items[1..], name)
      case Some(v) => Some(v)
      case None => if items[0].name == Some(name) then Some(items[0].value) else None
  }

  /** `fields` holds, for each recognised name, the converted value of the last item with
      that name, nothing for a name no item carries, and nothing else. */
  predicate Extracts(items: seq<Item>, schema: map<string, Conversion>, fields: map<string, Field>) {
    && fields.Keys <= schema.Keys
    && forall l | l in schema ::
         match LastValue(items, l)
         case None => l !in fields
         case Some(v) => l in fields && Convert(schema[l], v) == Success(fields[l])
  }

  predicate AllConvert(items: seq<Item>, schema: map<string, Conversion>) {
    forall i | 0 <= i < |items| && Relevant(items[i], schema) ::
      Convert(schema[items[i].name.value], items[i].value).Success?
  }

  lemma {:induction false} ProjectFrom(items: seq<Item>, schema: map<string, Conversion>, acc: map<string, Field>)
    ensures Project(items, schema, acc).Success? <==> AllConvert(items, schema)
    ensures Project(items, schema, acc).Success? ==>
      var fields := Project(items, schema, acc).value;
      && (forall l :: l in fields <==> l in acc || (l in schema && LastValue(items, l).Some?))
      && (forall l | l in schema ::
           match LastValue(items, l)
           case None => l in acc ==> fields[l] == acc[l]
           case Some(v) => Convert(schema[l], v) == Success(fields[l]))
      && (forall l | l in acc && l !in schema :: fields[l] == acc[l])
    decreases |items|
  {
    if items != [] {
      var rest := items[1..];
      assert AllConvert(items, schema) <==>
        (Relevant(items[0], schema) ==> Convert(schema[items[0].name.value], items[0].value).Success?)
        && AllConvert(rest, schema)
      by {
        if AllConvert(rest, schema) && (Relevant(items[0], schema) ==> Convert(schema[items[0].name.value], items[0].value).Success?) {
          forall i | 0 <= i < |items| && Relevant(items[i], schema)
            ensures Convert(schema[items[i].name.value], items[i].value).Success?
          {
            if i > 0 {
              assert items[i] == rest[i - 1];
            }
          }
        }
        if AllConvert(items, schema) {
          forall i | 0 <= i < |rest| && Relevant(rest[i], schema)
            ensures Convert(schema[rest[i].name.value], rest[i].value).Success?
          {
            assert rest[i] == items[i + 1];
          }
        }
      }
      if Relevant(items[0], schema) {
        var name := items[0].name.value;
        var c := Convert(schema[name], items[0].value);
        if c.Success? {
          ProjectFrom(rest, schema, acc[name := c.value]);
        }
      } else {
        ProjectFrom(rest, schema, acc);
      }
    }
  }

  /** Extraction succeeds iff every recognised item converts, and then the fields are
      exactly those of the last recognised item for each name: unknown names are
      ignored, missing names leave their field unset, and a repeated name keeps its
      last value. */
  lemma ProjectSpec(items: seq<Item>, schema: map<string, Conversion>)
    ensures Project(items, schema, map[]).Success? <==> AllConvert(items, schema)
    ensures Project(items, schema, map[]).Success? ==> Extracts(items, schema, Project(items, schema, map[]).value)
  {
    ProjectFrom(items, schema, map[]);
  }

  /** The loop of `_extract_metadata` and of the result parsers, over one item list. */
  method ExtractFields(items: seq<Item>, schema: map<string, Conversion>) returns (r: Result<map<string, Field>, Exception>)
    ensures r == Project(items, schema, map[])
  {
    var fields: map<string, Field> := map[];
    var i := 0;
    while i < |items|
      invariant 0 <= i <= |items|
      invariant Project(items, schema, map[]) == Project(items[i..], schema, fields)
    {
      assert items[i..][1..] == items[i + 1..];
      var item := items[i];
      if item.name.Some? && item.name.value in schema {
        var converted := Convert(schema[item.name.value], item.value);
        if converted.Failure? {
          return Failure(converted.error);
        }
        fields := fields[item.name.value := converted.value];
      }
      i := i + 1;
    }
    assert items[i..] == [];
    r := Success(fields);
  }

  // ---------------------------------------------------------------------------
  // STK callbacks

  /** The `Body.stkCallback` object; a required key that is absent is None. */
  datatype StkCallback = StkCallback(
    merchantRequestId: Option<Value>,
    checkoutRequestId: Option<Value>,
    resultCode: Option<Value>,
    resultDesc: Option<Value>,
    callbackMetadata: Option<Section>)

  datatype StkBody = StkBody(stkCallback: Option<StkCallback>)

  datatype StkPayload = StkPayload(body: Option<StkBody>)

  /** A parsed STK callback; the optional fields (amount, receipt number, transaction
      date, phone number) are the entries of `metadata` under their item names. */
  datatype StkResult = StkResult(
    merchantRequestId: Value,
    checkoutRequestId: Value,
    resultCode: Value,
    resultDescription: Value,
    isSuccess: bool,
    errorMessage: Option<string>,
    metadata: map<string, Field>)

  const StkSchema: map<string, Conversion> := map[
    "Amount" := ToFloat,
    "MpesaReceiptNumber" := ToStr,
    "TransactionDate" := ToDate,
    "PhoneNumber" := ToStr
  ]

  function Required<T>(o: Option<T>, key: string): Result<T, Exception> {
    match o
    case Some(v) => Success(v)
    case None => Failure(KeyError(key))
  }

  predicate StkKeysPresent(p: StkPayload) {
    && p.body.Some? && p.body.value.stkCallback.Some?
    && var cb := p.body.value.stkCallback.value;
    && cb.resultCode.Some? && cb.merchantRequestId.Some? && cb.checkoutRequestId.Some? && cb.resultDesc.Some?
  }

  /** What `parse_callback` returns or raises. */
  function ParsedStk(p: StkPayload): (r: Result<StkResult, Exception>)
    ensures p.body.None? ==> r == Failure(KeyError("Body"))
    ensures p.body.Some? && p.body.value.stkCallback.None? ==> r == Failure(KeyError("stkCallback"))
    ensures p.body.Some? && p.body.value.stkCallback.Some? ==>
      var cb := p.body.value.stkCallback.value;
      && (cb.resultCode.None? ==> r == Failure(KeyError("ResultCode")))
      && (cb.resultCode.Some? && cb.merchantRequestId.None? ==> r == Failure(KeyError("MerchantRequestID")))
      && (cb.resultCode.Some? && cb.merchantRequestId.Some? && cb.checkoutRequestId.None? ==>
            r == Failure(KeyError("CheckoutRequestID")))
      && (cb.resultCode.Some? && cb.merchantRequestId.Some? && cb.checkoutRequestId.Some? && cb.resultDesc.None? ==>
            r == Failure(KeyError("ResultDesc")))
    ensures r.Success? ==> StkKeysPresent(p)
    ensures StkKeysPresent(p) ==>
      var cb := p.body.value.stkCallback.value;
      && (r.Success? <==> !IsZero(cb.resultCode.value) || cb.callbackMetadata.None?
                          || AllConvert(SectionItems(cb.callbackMetadata.value), StkSchema))
      && (r.Success? ==>
           && r.value.merchantRequestId == cb.merchantRequestId.value
           && r.value.checkoutRequestId == cb.checkoutRequestId.value
           && r.value.resultCode == cb.resultCode.value
           && r.value.resultDescription == cb.resultDesc.value
           && (r.value.isSuccess <==> IsZero(cb.resultCode.value))
           && r.value.errorMessage == (if r.value.isSuccess then None else Some(GetErrorMessage(cb.resultCode.value)))
           && (r.value.isSuccess && cb.callbackMetadata.Some? ==>
                 Extracts(SectionItems(cb.callbackMetadata.value), StkSchema, r.value.metadata))
           && (!r.value.isSuccess || cb.callbackMetadata.None? ==> r.value.metadata == map[]))
  {
    var body :- Required(p.body, "Body");
    var cb :- Required(body.stkCallback, "stkCallback");
    var code :- Required(cb.resultCode, "ResultCode");
    var merchant :- Required(cb.merchantRequestId, "MerchantRequestID");
    var checkout :- Required(cb.checkoutRequestId, "CheckoutRequestID");
    var desc :- Required(cb.resultDesc, "ResultDesc");
    var success := IsZero(code);
    var parsed := StkResult(merchant, checkout, code, desc, success,
                            if success then None else Some(GetErrorMessage(code)), map[]);
    if success && cb.callbackMetadata.Some? then
      var items := SectionItems(cb.callbackMetadata.value);
      ProjectSpec(items, StkSchema);
      var fields :- Project(items, StkSchema, map[]);
      Success(parsed.(metadata := fields))
    else
      Success(parsed)
  }

  /** `parse_callback` with its metadata loop. */
  method ParseCallback(p: StkPayload) returns (r: Result<StkResult, Exception>)
    ensures r == ParsedStk(p)
  {
    if p.body.None? {
      return Failure(KeyError("Body"));
    }
    if p.body.value.stkCallback.None? {
      return Failure(KeyError("stkCallback"));
    }
    var cb := p.body.value.stkCallback.value;
    if cb.resultCode.None? {
      return Failure(KeyError("ResultCode"));
    }
    if cb.merchantRequestId.None? {
      return Failure(KeyError("MerchantRequestID"));
    }
    if cb.checkoutRequestId.None? {
      return Failure(KeyError("CheckoutRequestID"));
    }
    if cb.resultDesc.None? {
      return Failure(KeyError("ResultDesc"));
    }
    var code := cb.resultCode.value;
    var success := IsZero(code);
    var parsed := StkResult(cb.merchantRequestId.value, cb.checkoutRequestId.value, code, cb.resultDesc.value,
                            success, if success then None else Some(GetErrorMessage(code)), map[]);
    if success && cb.callbackMetadata.Some? {
      var fields := ExtractFields(SectionItems(cb.callbackMetadata.value), StkSchema);
      if fields.Failure? {
        return Failure(fields.error);
      }
      parsed := parsed.(metadata := fields.value);
    }
    r := Success(parsed);
  }

  // ---------------------------------------------------------------------------
  // Result callbacks (B2C, B2B, account balance, transaction status, reversal)

  datatype ResultKind = B2C | B2B | AccountBalance | TransactionStatus | Reversal

  /** The `Result` object of a result callback. `OriginatorConversationID` and
      `TransactionID` are read with `get`, so an absent one is JNull. */
  datatype ResultBody = ResultBody(
    resultCode: Option<Value>,
    resultParameters: Option<Section>,
    originatorConversationId: Value,
    transactionId: Value)

  datatype ResultPayload = ResultPayload(result: Option<ResultBody>)

  /** A parsed result callback. The optional fields of each kind are the entries of
      `parameters` under their parameter keys; `originatorConversationId` exists only for
      a transaction status and `transactionId` only for a reversal. */
  datatype ResultRecord = ResultRecord(
    kind: ResultKind,
    isSuccess: bool,
    errorMessage: Option<string>,
    parameters: map<string, Field>,
    originatorConversationId: Option<Value>,
    transactionId: Option<Value>)

  /** The parameter keys each kind's loop recognises; a reversal has no loop. */
  function ResultSchema(kind: ResultKind): map<string, Conversion> {
    match kind
    case B2C => map[
      "TransactionReceipt" := ToStr,
      "TransactionAmount" := ToFloat,
      "ReceiverPartyPublicName" := ToStr,
      "B2CChargesPaidAccountAvailableFunds" := ToFloat]
    case B2B => map["TransactionReceipt" := ToStr, "TransactionAmount" := ToFloat]
    case AccountBalance => map[
      "WorkingAccountAvailableFunds" := ToFloat,
      "AvailableBalance" := ToFloat,
      "BookedBalance" := ToFloat]
    case TransactionStatus => map[
      "ReceiptNo" := ToStr,
      "TransactionAmount" := ToFloat,
      "TransCompletedTime" := ToStr]
    case Reversal => map[]
  }

  /** Whether parameters are extracted for this kind and body. */
  predicate ExtractsParameters(kind: ResultKind, body: ResultBody) {
    kind != Reversal && body.resultCode.Some? && IsZero(body.resultCode.value) && body.resultParameters.Some?
  }

  /** What `parse_b2c_callback`, `parse_b2b_callback`, `parse_account_balance_callback`,
      `parse_transaction_status_callback` and `parse_reversal_callback` return or raise. */
  function ParsedResult(kind: ResultKind, p: ResultPayload): (r: Result<ResultRecord, Exception>)
    ensures p.result.None? ==> r == Failure(KeyError("Result"))
    ensures p.result.Some? && p.result.value.resultCode.None? ==> r == Failure(KeyError("ResultCode"))
    ensures p.result.Some? && p.result.value.resultCode.Some? ==>
      var body := p.result.value;
      var code := body.resultCode.value;
      && (r.Success? <==> !ExtractsParameters(kind, body)
                          || AllConvert(SectionItems(body.resultParameters.value), ResultSchema(kind)))
      && (r.Success? ==>
           && r.value.kind == kind
           && (r.value.isSuccess <==> IsZero(code))
           && r.value.errorMessage == (if r.value.isSuccess then None else Some(GetErrorMessage(code)))
           && (ExtractsParameters(kind, body) ==>
                 Extracts(SectionItems(body.resultParameters.value), ResultSchema(kind), r.value.parameters))
           && (!ExtractsParameters(kind, body) ==> r.value.parameters == map[])
           && r.value.originatorConversationId ==
                (if kind == TransactionStatus then Some(body.originatorConversationId) else None)
           && r.value.transactionId == (if kind == Reversal then Some(body.transactionId) else None))
  {
    var body :- Required(p.result, "Result");
    var code :- Required(body.resultCode, "ResultCode");
    var success := IsZero(code);
    var parsed := ResultRecord(kind, success, if success then None else Some(GetErrorMessage(code)), map[],
                               if kind == TransactionStatus then Some(body.originatorConversationId) else None,
                               if kind == Reversal then Some(body.transactionId) else None);
    if ExtractsParameters(kind, body) then
      var items := SectionItems(body.resultParameters.value);
      ProjectSpec(items, ResultSchema(kind));
      var fields :- Project(items, ResultSchema(kind), map[]);
      Success(parsed.(parameters := fields))
    else
      Success(parsed)
  }

  /** The result parsers with their parameter loops. */
  method ParseResultCallback(kind: ResultKind, p: ResultPayload) returns (r: Result<ResultRecord, Exception>)
    ensures r == ParsedResult(kind, p)
  {
    if p.result.None? {
      return Failure(KeyError("Result"));
    }
    var body := p.result.value;
    if body.resultCode.None? {
      return Failure(KeyError("ResultCode"));
    }
    var code := body.resultCode.value;
    var success := IsZero(code);
    var parsed := ResultRecord(kind, success, if success then None else Some(GetErrorMessage(code)), map[],
                               if kind == TransactionStatus then Some(body.originatorConversationId) else None,
                               if kind == Reversal then Some(body.transactionId) else None);
    if kind != Reversal && success && body.resultParameters.Some? {
      var fields := ExtractFields(SectionItems(body.resultParameters.value), ResultSchema(kind));
      if fields.Failure? {
        return Failure(fields.error);
      }
      parsed := parsed.(parameters := fields.value);
    }
    r := Success(parsed);
  }

  // ---------------------------------------------------------------------------
  // C2B callbacks

  /** A C2B validation or confirmation body; required keys are Options, the keys read
      with `get` are JNull when absent. */
  datatype C2BPayload = C2BPayload(
    transactionType: Option<Value>,
    transId: Option<Value>,
    transTime: Option<Value>,
    transAmount: Option<Value>,
    businessShortCode: Option<Value>,
    billRefNumber: Option<Value>,
    msisdn: Option<Value>,
    invoiceNumber: Value,
    firstName: Value,
    middleName: Value,
    lastName: Value)

  datatype C2BResult = C2BResult(
    transactionType: Value,
    transactionId: Value,
    transactionTime: Value,
    amount: real,
    businessShortCode: Value,
    billRefNumber: Value,
    msisdn: Value,
    invoiceNumber: Value,
    firstName: Value,
    middleName: Value,
    lastName: Value)

  predicate C2BKeysPresent(p: C2BPayload) {
    && p.transactionType.Some? && p.transId.Some? && p.transTime.Some? && p.transAmount.Some?
    && p.businessShortCode.Some? && p.billRefNumber.Some? && p.msisdn.Some?
  }

  /** What `parse_c2b_callback` returns or raises: keys are read in the order
      TransactionType, TransID, TransTime, TransAmount (then converted), BusinessShortCode,
      BillRefNumber, MSISDN. */
  function ParseC2BCallback(p: C2BPayload): (r: Result<C2BResult, Exception>)
    ensures r.Success? <==> C2BKeysPresent(p) && FloatOf(p.transAmount.value).Success?
    ensures r.Success? ==>
      && Success(r.value.amount) == FloatOf(p.transAmount.value)
      && r.value == C2BResult(p.transactionType.value, p.transId.value, p.transTime.value, r.value.amount,
                              p.businessShortCode.value, p.billRefNumber.value, p.msisdn.value,
                              p.invoiceNumber, p.firstName, p.middleName, p.lastName)
    ensures p.transactionType.None? ==> r == Failure(KeyError("TransactionType"))
    ensures p.transactionType.Some? && p.transId.None? ==> r == Failure(KeyError("TransID"))
    ensures p.transactionType.Some? && p.transId.Some? && p.transTime.None? ==> r == Failure(KeyError("TransTime"))
    ensures p.transactionType.Some? && p.transId.Some? && p.transTime.Some? && p.transAmount.None? ==>
      r == Failure(KeyError("TransAmount"))
    ensures (p.transactionType.Some? && p.transId.Some? && p.transTime.Some? && p.transAmount.Some?
             && FloatOf(p.transAmount.value).Failure?) ==> r == Failure(FloatOf(p.transAmount.value).error)
    ensures (p.transactionType.Some? && p.transId.Some? && p.transTime.Some? && p.transAmount.Some?
             && FloatOf(p.transAmount.value).Success?) ==>
      && (p.businessShortCode.None? ==> r == Failure(KeyError("BusinessShortCode")))
      && (p.businessShortCode.Some? && p.billRefNumber.None? ==> r == Failure(KeyError("BillRefNumber")))
      && (p.businessShortCode.Some? && p.billRefNumber.Some? && p.msisdn.None? ==> r == Failure(KeyError("MSISDN")))
  {
    var transactionType :- Required(p.transactionType, "TransactionType");
    var transId :- Required(p.transId, "TransID");
    var transTime :- Required(p.transTime, "TransTime");
    var amountValue :- Required(p.transAmount, "TransAmount");
    var amount :- FloatOf(amountValue);
    var shortCode :- Required(p.businessShortCode, "BusinessShortCode");
    var billRef :- Required(p.billRefNumber, "BillRefNumber");
    var msisdn :- Required(p.msisdn, "MSISDN");
    Success(C2BResult(transactionType, transId, transTime, amount, shortCode, billRef, msisdn,
                      p.invoiceNumber, p.firstName, p.middleName, p.lastName))
  }

  // ---------------------------------------------------------------------------
  // The handler object

  /** The registered callbacks. A handler is modelled by what it does with its argument:
      return (Pass) or raise. */
  datatype Hooks = Hooks(
    onSuccess: Option<StkResult -> Outcome<Exception>>,
    onFailure: Option<StkResult -> Outcome<Exception>>,
    onCallback: Option<StkResult -> Outcome<Exception>>,
    onC2BConfirmation: Option<C2BResult -> Outcome<Exception>>,
    onC2BValidation: Option<C2BResult -> Result<bool, Exception>>,
    onB2CResult: Option<ResultRecord -> Outcome<Exception>>,
    onB2BResult: Option<ResultRecord -> Outcome<Exception>>,
    onAccountBalance: Option<ResultRecord -> Outcome<Exception>>,
    onTransactionStatus: Option<ResultRecord -> Outcome<Exception>>,
    onReversal: Option<ResultRecord -> Outcome<Exception>>,
    isDuplicate: Option<Value -> Result<bool, Exception>>)

  const NoHooks := Hooks(None, None, None, None, None, None, None, None, None, None, None)

  datatype CallbackHandler = CallbackHandler(hooks: Hooks, validateIp: bool, allowedIps: seq<string>)

  const SafaricomIps: seq<string> := [
    "196.201.214.200", "196.201.214.206", "196.201.213.114", "196.201.214.207",
    "196.201.214.208", "196.201.213.44", "196.201.212.127", "196.201.212.138",
    "196.201.212.129", "196.201.212.136", "196.201.212.74", "196.201.212.69"
  ]

  /** The handler's constructor: a missing or empty allow list falls back to the
      Safaricom addresses. */
  function NewCallbackHandler(hooks: Hooks, validateIp: bool, allowedIps: Option<seq<string>>): (h: CallbackHandler)
    ensures h.validateIp == validateIp
    ensures h.allowedIps != []
    ensures allowedIps.Some? && allowedIps.value != [] ==> h.allowedIps == allowedIps.value
  {
    CallbackHandler(hooks, validateIp, if allowedIps.Some? && allowedIps.value != [] then allowedIps.value else SafaricomIps)
  }

  function ValidateCallbackIp(h: CallbackHandler, ip: string): bool {
    !h.validateIp || ip in h.allowedIps
  }

  /** Every address passes when validation is off; otherwise an address passes iff it is
      on the given list, or on the Safaricom list when none (or an empty one) was given. */
  lemma AllowList(hooks: Hooks, validateIp: bool, allowedIps: Option<seq<string>>, ip: string)
    ensures !validateIp ==> ValidateCallbackIp(NewCallbackHandler(hooks, validateIp, allowedIps), ip)
    ensures validateIp && (allowedIps.None? || allowedIps.value == []) ==>
      (ValidateCallbackIp(NewCallbackHandler(hooks, validateIp, allowedIps), ip) <==> ip in SafaricomIps)
    ensures validateIp && allowedIps.Some? && allowedIps.value != [] ==>
      (ValidateCallbackIp(NewCallbackHandler(hooks, validateIp, allowedIps), ip) <==> ip in allowedIps.value)
  {
  }

  /** The default list admits the Safaricom gateway and nothing else, e.g. not a private
      address. */
  lemma DefaultAllowListExample()
    ensures ValidateCallbackIp(NewCallbackHandler(NoHooks, true, None), "196.201.214.200")
    ensures !ValidateCallbackIp(NewCallbackHandler(NoHooks, true, Some([])), "10.0.0.1")
  {
    assert SafaricomIps[0] == "196.201.214.200";
  }

  // ---------------------------------------------------------------------------
  // Dispatch

  datatype HandlerKind = OnCallback | OnSuccess | OnFailure | OnC2BConfirmation

  /** How a handling run ended and which handlers it invoked, in order. */
  datatype Dispatch = Dispatch(outcome: Outcome<Exception>, invoked: seq<HandlerKind>)

  /** The duplicate check reports the callback as already seen. */
  predicate ReportedDuplicate(hooks: Hooks, p: StkResult) {
    hooks.isDuplicate.Some? && hooks.isDuplicate.value(p.checkoutRequestId) == Success(true)
  }

  /** The duplicate check raised. */
  predicate DuplicateCheckRaised(hooks: Hooks, p: StkResult) {
    hooks.isDuplicate.Some? && hooks.isDuplicate.value(p.checkoutRequestId).Failure?
  }

  /** Handlers run after the duplicate check for a parsed STK callback: the generic one
      first, then the success or the failure handler. */
  function DispatchStk(hooks: Hooks, p: StkResult): (d: Dispatch)
    ensures ReportedDuplicate(hooks, p) ==> d == Dispatch(Pass, [])
    ensures DuplicateCheckRaised(hooks, p) ==>
      d == Dispatch(Fail(hooks.isDuplicate.value(p.checkoutRequestId).error), [])
    ensures |d.invoked| <= 2
    ensures OnCallback in d.invoked ==> d.invoked[0] == OnCallback
    ensures OnCallback in d.invoked <==>
      hooks.onCallback.Some? && !ReportedDuplicate(hooks, p) && !DuplicateCheckRaised(hooks, p)
    ensures OnSuccess in d.invoked ==> p.isSuccess && hooks.onSuccess.Some?
    ensures OnFailure in d.invoked ==> !p.isSuccess && hooks.onFailure.Some?
    ensures OnC2BConfirmation !in d.invoked
    ensures OnCallback in d.invoked && hooks.onCallback.value(p).Fail? ==>
      d == Dispatch(hooks.onCallback.value(p), [OnCallback])
    ensures !ReportedDuplicate(hooks, p) && !DuplicateCheckRaised(hooks, p)
            && (hooks.onCallback.None? || hooks.onCallback.value(p).Pass?) ==>
      && (p.isSuccess && hooks.onSuccess.Some? ==>
            |d.invoked| >= 1 && d.invoked[|d.invoked| - 1] == OnSuccess && d.outcome == hooks.onSuccess.value(p))
      && (!p.isSuccess && hooks.onFailure.Some? ==>
            |d.invoked| >= 1 && d.invoked[|d.invoked| - 1] == OnFailure && d.outcome == hooks.onFailure.value(p))
      && ((p.isSuccess && hooks.onSuccess.None?) || (!p.isSuccess && hooks.onFailure.None?) ==>
            d.outcome == Pass)
  {
    var dup := if hooks.isDuplicate.Some? then hooks.isDuplicate.value(p.checkoutRequestId) else Success(false);
    if dup.Failure? then Dispatch(Fail(dup.error), [])
    else if dup.value then Dispatch(Pass, [])
    else
      var generic := if hooks.onCallback.Some? then Dispatch(hooks.onCallback.value(p), [OnCallback])
                     else Dispatch(Pass, []);
      if generic.outcome.Fail? then generic
      else if p.isSuccess && hooks.onSuccess.Some? then
        Dispatch(hooks.onSuccess.value(p), generic.invoked + [OnSuccess])
      else if !p.isSuccess && hooks.onFailure.Some? then
        Dispatch(hooks.onFailure.value(p), generic.invoked + [OnFailure])
      else generic
  }

  /** Exactly one of the success and failure handlers can run, and it matches the
      callback's result. */
  lemma OneOutcomeHandler(hooks: Hooks, p: StkResult)
    ensures !(OnSuccess in DispatchStk(hooks, p).invoked && OnFailure in DispatchStk(hooks, p).invoked)
    ensures multiset(DispatchStk(hooks, p).invoked)[OnSuccess] <= 1
    ensures multiset(DispatchStk(hooks, p).invoked)[OnFailure] <= 1
  {
    var d := DispatchStk(hooks, p);
    if OnCallback in d.invoked {
      assert d.invoked[0] == OnCallback;
    }
  }

  /** Whether `handle_callback` checks the sender: only for a non-empty address. */
  predicate Untrusted(h: CallbackHandler, ip: Option<string>) {
    ip.Some? && ip.value != "" && !ValidateCallbackIp(h, ip.value)
  }

  /** What `handle_callback` does: reject an untrusted sender before parsing, then parse,
      then dispatch. */
  function StkHandling(h: CallbackHandler, payload: StkPayload, ip: Option<string>): (d: Dispatch)
    ensures Untrusted(h, ip) ==> d == Dispatch(Fail(ValueError("Invalid callback IP: " + ip.value)), [])
    ensures !Untrusted(h, ip) && ParsedStk(payload).Failure? ==> d == Dispatch(Fail(ParsedStk(payload).error), [])
    ensures d.invoked != [] ==> !Untrusted(h, ip) && ParsedStk(payload).Success?
    ensures !Untrusted(h, ip) && ParsedStk(payload).Success? ==> d == DispatchStk(h.hooks, ParsedStk(payload).value)
  {
    if Untrusted(h, ip) then Dispatch(Fail(ValueError("Invalid callback IP: " + ip.value)), [])
    else match ParsedStk(payload)
      case Failure(e) => Dispatch(Fail(e), [])
      case Success(p) => DispatchStk(h.hooks, p)
  }

  /** `handle_callback`, step by step. */
  method HandleCallback(h: CallbackHandler, payload: StkPayload, ip: Option<string>) returns (d: Dispatch)
    ensures d == StkHandling(h, payload, ip)
  {
    if ip.Some? && ip.value != "" && !ValidateCallbackIp(h, ip.value) {
      return Dispatch(Fail(ValueError("Invalid callback IP: " + ip.value)), []);
    }
    var parsed := ParseCallback(payload);
    if parsed.Failure? {
      return Dispatch(Fail(parsed.error), []);
    }
    var p := parsed.value;
    if h.hooks.isDuplicate.Some? {
      var isDupe := h.hooks.isDuplicate.value(p.checkoutRequestId);
      if isDupe.Failure? {
        return Dispatch(Fail(isDupe.error), []);
      }
      if isDupe.value {
        return Dispatch(Pass, []);
      }
    }
    var invoked: seq<HandlerKind> := [];
    if h.hooks.onCallback.Some? {
      var result := h.hooks.onCallback.value(p);
      invoked := invoked + [OnCallback];
      if result.Fail? {
        return Dispatch(result, invoked);
      }
    }
    if p.isSuccess && h.hooks.onSuccess.Some? {
      var result := h.hooks.onSuccess.value(p);
      return Dispatch(result, invoked + [OnSuccess]);
    } else if !p.isSuccess && h.hooks.onFailure.Some? {
      var result := h.hooks.onFailure.value(p);
      return Dispatch(result, invoked + [OnFailure]);
    }
    d := Dispatch(Pass, invoked);
  }

  /** `handle_c2b_validation`: the validator's verdict, or acceptance when none is
      registered. */
  function HandleC2BValidation(h: CallbackHandler, payload: C2BPayload): (r: Result<bool, Exception>)
    ensures ParseC2BCallback(payload).Failure? ==> r == Failure(ParseC2BCallback(payload).error)
    ensures ParseC2BCallback(payload).Success? && h.hooks.onC2BValidation.None? ==> r == Success(true)
    ensures ParseC2BCallback(payload).Success? && h.hooks.onC2BValidation.Some? ==>
      r == h.hooks.onC2BValidation.value(ParseC2BCallback(payload).value)
  {
    var parsed :- ParseC2BCallback(payload);
    if h.hooks.onC2BValidation.Some? then h.hooks.onC2BValidation.value(parsed) else Success(true)
  }

  /** `handle_c2b_confirmation`: parse, then run the confirmation handler if registered. */
  function HandleC2BConfirmation(h: CallbackHandler, payload: C2BPayload): (d: Dispatch)
    ensures ParseC2BCallback(payload).Failure? ==> d == Dispatch(Fail(ParseC2BCallback(payload).error), [])
    ensures ParseC2BCallback(payload).Success? && h.hooks.onC2BConfirmation.None? ==> d == Dispatch(Pass, [])
    ensures ParseC2BCallback(payload).Success? && h.hooks.onC2BConfirmation.Some? ==>
      d == Dispatch(h.hooks.onC2BConfirmation.value(ParseC2BCallback(payload).value), [OnC2BConfirmation])
  {
    match ParseC2BCallback(payload)
    case Failure(e) => Dispatch(Fail(e), [])
    case Success(parsed) =>
      if h.hooks.onC2BConfirmation.Some? then
        Dispatch(h.hooks.onC2BConfirmation.value(parsed), [OnC2BConfirmation])
      else Dispatch(Pass, [])
  }

  // ---------------------------------------------------------------------------
  // Acknowledgment

  /** The `{ResultCode, ResultDesc}` body returned to the gateway. */
  datatype Ack = Ack(resultCode: int, resultDesc: string)

  function CreateCallbackResponse(success: bool, message: Option<string>): (a: Ack)
    ensures a.resultCode == 0 <==> success
    ensures a.resultCode == 0 || a.resultCode == 1
    ensures a.resultDesc != ""
    ensures message.Some? && message.value != "" ==> a.resultDesc == message.value
    ensures message.None? || message.value == "" ==> a.resultDesc == (if success then "Accepted" else "Rejected")
  {
    Ack(if success then 0 else 1, Or(message, if success then "Accepted" else "Rejected"))
  }
}
