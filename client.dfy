/** The gateway client: phone normalisation, the guards each operation applies before it
    sends anything, the rate-limit key each operation uses, the choice of limiter, one
    request attempt, and the acknowledgments the callback entry points return. */
module Client {
  import opened Wrappers
  import opened Errors
  import opened Text
  import opened Retry
  import opened RateLimitSpec
  import opened RateLimit
  import opened Callback

  // ---------------------------------------------------------------------------
  // Phone numbers

  /** Python's `\s` on str patterns: the characters `str.isspace` accepts. */
  predicate IsWhitespace(c: char) {
    var n := c as int;
    (0x9 <= n <= 0xD) || (0x1C <= n <= 0x20) || n == 0x85 || n == 0xA0 || n == 0x1680
    || (0x2000 <= n <= 0x200A) || n == 0x2028 || n == 0x2029 || n == 0x202F || n == 0x205F || n == 0x3000
  }

  /** The characters the pattern `[\s\-+]` removes. */
  predicate IsPhoneSeparator(c: char) {
    IsWhitespace(c) || c == '-' || c == '+'
  }

  /** Python's `\d` on str patterns: a decimal digit of any script (Unicode category Nd,
      Unicode 15.0). */
  predicate IsDecimalDigit(c: char) {
    var n := c as int;
    (0x30 <= n <= 0x39) || (0x660 <= n <= 0x669) || (0x6F0 <= n <= 0x6F9) || (0x7C0 <= n <= 0x7C9)
    || (0x966 <= n <= 0x96F) || (0x9E6 <= n <= 0x9EF) || (0xA66 <= n <= 0xA6F) || (0xAE6 <= n <= 0xAEF)
    || (0xB66 <= n <= 0xB6F) || (0xBE6 <= n <= 0xBEF) || (0xC66 <= n <= 0xC6F) || (0xCE6 <= n <= 0xCEF)
    || (0xD66 <= n <= 0xD6F) || (0xDE6 <= n <= 0xDEF) || (0xE50 <= n <= 0xE59) || (0xED0 <= n <= 0xED9)
    || (0xF20 <= n <= 0xF29) || (0x1040 <= n <= 0x1049) || (0x1090 <= n <= 0x1099) || (0x17E0 <= n <= 0x17E9)
    || (0x1810 <= n <= 0x1819) || (0x1946 <= n <= 0x194F) || (0x19D0 <= n <= 0x19D9) || (0x1A80 <= n <= 0x1A89)
    || (0x1A90 <= n <= 0x1A99) || (0x1B50 <= n <= 0x1B59) || (0x1BB0 <= n <= 0x1BB9) || (0x1C40 <= n <= 0x1C49)
    || (0x1C50 <= n <= 0x1C59) || (0xA620 <= n <= 0xA629) || (0xA8D0 <= n <= 0xA8D9) || (0xA900 <= n <= 0xA909)
    || (0xA9D0 <= n <= 0xA9D9) || (0xA9F0 <= n <= 0xA9F9) || (0xAA50 <= n <= 0xAA59) || (0xABF0 <= n <= 0xABF9)
    || (0xFF10 <= n <= 0xFF19) || (0x104A0 <= n <= 0x104A9) || (0x10D30 <= n <= 0x10D39) || (0x11066 <= n <= 0x1106F)
    || (0x110F0 <= n <= 0x110F9) || (0x11136 <= n <= 0x1113F) || (0x111D0 <= n <= 0x111D9) || (0x112F0 <= n <= 0x112F9)
    || (0x11450 <= n <= 0x11459) || (0x114D0 <= n <= 0x114D9) || (0x11650 <= n <= 0x11659) || (0x116C0 <= n <= 0x116C9)
    || (0x11730 <= n <= 0x11739) || (0x118E0 <= n <= 0x118E9) || (0x11950 <= n <= 0x11959) || (0x11C50 <= n <= 0x11C59)
    || (0x11D50 <= n <= 0x11D59) || (0x11DA0 <= n <= 0x11DA9) || (0x11F50 <= n <= 0x11F59) || (0x16A60 <= n <= 0x16A69)
    || (0x16AC0 <= n <= 0x16AC9) || (0x16B50 <= n <= 0x16B59) || (0x1D7CE <= n <= 0x1D7FF) || (0x1E140 <= n <= 0x1E149)
    || (0x1E2F0 <= n <= 0x1E2F9) || (0x1E4F0 <= n <= 0x1E4F9) || (0x1E950 <= n <= 0x1E959) || (0x1FBF0 <= n <= 0x1FBF9)
  }

  /** `re.sub(r"[\s\-+]", "", s)`: s with every separator removed, the rest in order. */
  function RemoveSeparators(s: string): (r: string)
    ensures |r| <= |s|
    ensures forall i | 0 <= i < |r| :: !IsPhoneSeparator(r[i])
    ensures (forall i | 0 <= i < |s| :: !IsPhoneSeparator(s[i])) ==> r == s
  {
    if s == [] then []
    else if IsPhoneSeparator(s[0]) then RemoveSeparators(s[1..])
    else
      assert s == [s[0]] + s[1..];
      [s[0]] + RemoveSeparators(s[1..])
  }

  /** A leading 0 becomes the country code 254; a number not already starting with 254
      gets it prefixed. */
  function AddCountryCode(f: string): (g: string)
    ensures |f| > 0 && f[0] == '0' ==> g == "254" + f[1..]
    ensures !(|f| > 0 && f[0] == '0') && !(|f| >= 3 && f[..3] == "254") ==> g == "254" + f
    ensures |f| >= 3 && f[..3] == "254" ==> g == f
    ensures |g| >= 3 && g[..3] == "254"
  {
    if |f| > 0 && f[0] == '0' then "254" + f[1..]
    else if !(|f| >= 3 && f[..3] == "254") then "254" + f
    else f
  }

  /** `^254[17]\d{8}$`. */
  predicate IsKenyanMobile(f: string) {
    && |f| == 12
    && f[..3] == "254"
    && (f[3] == '1' || f[3] == '7')
    && forall i | 4 <= i < 12 :: IsDecimalDigit(f[i])
  }

  function InvalidRequest(message: string): Exception {
    Mpesa(ValidationError(message, NoDetails))
  }

  /** `validateAndFormatPhone`: the normalised number when it is a Kenyan mobile number,
      else a validation error naming the input. */
  function ValidateAndFormatPhone(phone: string): (r: Result<string, Exception>)
    ensures r.Success? <==> IsKenyanMobile(AddCountryCode(RemoveSeparators(phone)))
    ensures r.Success? ==> r.value == AddCountryCode(RemoveSeparators(phone))
    ensures r.Success? ==> |r.value| == 12 && (r.value[..4] == "2541" || r.value[..4] == "2547")
    ensures r.Failure? ==> r.error == InvalidRequest("Invalid phone number format: " + phone)
  {
    var formatted := AddCountryCode(RemoveSeparators(phone));
    if IsKenyanMobile(formatted) then Success(formatted)
    else Failure(InvalidRequest("Invalid phone number format: " + phone))
  }

  /** Formatting is idempotent: a formatted number formats to itself. */
  lemma ValidateAndFormatPhoneIdempotent(phone: string)
    requires ValidateAndFormatPhone(phone).Success?
    ensures ValidateAndFormatPhone(ValidateAndFormatPhone(phone).value) == ValidateAndFormatPhone(phone)
  {
    var f := ValidateAndFormatPhone(phone).value;
    assert f[0] == '2' && f[1] == '5' && f[2] == '4';
    forall i | 0 <= i < |f| ensures !IsPhoneSeparator(f[i]) {
      if i >= 4 {
        DigitNotSeparator(f[i]);
      }
    }
    assert RemoveSeparators(f) == f;
  }

  /** A digit of any script is never a separator. */
  lemma DigitNotSeparator(c: char)
    requires IsDecimalDigit(c)
    ensures !IsPhoneSeparator(c)
  {
    var n := c as int;
    assert (0x30 <= n <= 0x39) || (0x660 <= n <= 0x1C59 && n != 0x1680) || 0xA620 <= n;
  }
  /** `\d{n}` for n = |d|. */
  predicate DecimalDigits(d: string) {
    forall i | 0 <= i < |d| :: IsDecimalDigit(d[i])
  }
  /** A local number: its leading 0 becomes the country code. */
  lemma LocalForm(d: string)
    requires |d| == 8 && DecimalDigits(d)
    ensures ValidateAndFormatPhone("07" + d) == Success("2547" + d)
  {
    var f := "2547" + d;
    var p := "07" + d;
    forall i | 0 <= i < |p| ensures !IsPhoneSeparator(p[i]) {
      if i >= 2 { DigitNotSeparator(p[i]); }
    }
    assert RemoveSeparators(p) == p;
    assert AddCountryCode(p) == f by {
      assert p[1..] == "7" + d;
    }
    assert IsKenyanMobile(f) by {
      forall i | 4 <= i < 12 ensures IsDecimalDigit(f[i]) { assert f[i] == d[i - 4]; }
    }
  }
  /** A number without its leading 0 gets the country code prefixed. */
  lemma BareForm(d: string)
    requires |d| == 8 && DecimalDigits(d)
    ensures ValidateAndFormatPhone("7" + d) == Success("2547" + d)
  {
    var f := "2547" + d;
    var p := "7" + d;
    forall i | 0 <= i < |p| ensures !IsPhoneSeparator(p[i]) {
      if i >= 1 { DigitNotSeparator(p[i]); }
    }
    assert RemoveSeparators(p) == p;
    assert AddCountryCode(p) == f;
    assert IsKenyanMobile(f) by {
      forall i | 4 <= i < 12 ensures IsDecimalDigit(f[i]) { assert f[i] == d[i - 4]; }
    }
  }
  /** The international spelling loses its plus sign; numbers starting 2541 are mobile
      numbers too. */
  lemma InternationalForm(d: string)
    requires |d| == 8 && DecimalDigits(d)
    ensures ValidateAndFormatPhone("+2541" + d) == Success("2541" + d)
  {
    var f := "2541" + d;
    var p := "+2541" + d;
    forall i | 0 <= i < |f| ensures !IsPhoneSeparator(f[i]) {
      if i >= 4 { DigitNotSeparator(f[i]); }
    }
    assert RemoveSeparators(p) == RemoveSeparators(f) by {
      assert p[1..] == f;
    }
    assert RemoveSeparators(f) == f;
    assert AddCountryCode(f) == f;
    assert IsKenyanMobile(f) by {
      forall i | 4 <= i < 12 ensures IsDecimalDigit(f[i]) { assert f[i] == d[i - 4]; }
    }
  }
  /** Removing separators distributes over concatenation. */
  lemma {:induction false} RemoveSeparatorsAppend(a: string, b: string)
    ensures RemoveSeparators(a + b) == RemoveSeparators(a) + RemoveSeparators(b)
  {
    if a == [] {
      assert a + b == b;
    } else {
      assert (a + b)[0] == a[0];
      assert (a + b)[1..] == a[1..] + b;
      RemoveSeparatorsAppend(a[1..], b);
      if !IsPhoneSeparator(a[0]) {
        assert [a[0]] + (RemoveSeparators(a[1..]) + RemoveSeparators(b))
          == ([a[0]] + RemoveSeparators(a[1..])) + RemoveSeparators(b);
      }
    }
  }
  /** A number whose network digit is neither 1 nor 7 is refused, whatever follows. */
  lemma OtherNetworkRefused(d: string)
    ensures ValidateAndFormatPhone("2548" + d).Failure?
  {
    RemoveSeparatorsAppend("2548", d);
    assert RemoveSeparators("2548") == "2548";
    var f := RemoveSeparators("2548" + d);
    assert f[..3] == "254" && f[3] == '8';
    assert AddCountryCode(f) == f;
  }
  /** `\d` accepts digits of every script: eight Arabic-Indic digits, none of them an
      ASCII digit, make a valid number (with LocalForm), returned in those digits. */
  lemma ArabicIndicDigits()
    ensures DecimalDigits("١٢٣٤٥٦٧٨")
    ensures forall i | 0 <= i < 8 :: !('0' <= "١٢٣٤٥٦٧٨"[i] <= '9')
    ensures ValidateAndFormatPhone("07" + "١٢٣٤٥٦٧٨") == Success("2547" + "١٢٣٤٥٦٧٨")
  {
    LocalForm("١٢٣٤٥٦٧٨");
  }

  // ---------------------------------------------------------------------------
  // Rate-limit keys

  datatype Operation = StkPushOp | StkQueryOp | C2BRegisterOp | B2COp | B2BOp | BalanceOp | StatusOp | ReversalOp | QrOp

  /** The key each operation passes to the limiter. */
  function RateKey(op: Operation, id: string): string {
    match op
    case StkPushOp => "stk:" + id
    case StkQueryOp => "query:" + id
    case C2BRegisterOp => "c2b:register"
    case B2COp => "b2c:" + id
    case B2BOp => "b2b:" + id
    case BalanceOp => "balance"
    case StatusOp => "status:" + id
    case ReversalOp => "reversal:" + id
    case QrOp => "qr:" + id
  }

  /** The characters every key of an operation starts with. */
  function KeyHead(op: Operation): string {
    match op
    case StkPushOp => "stk:"
    case StkQueryOp => "query:"
    case C2BRegisterOp => "c2b:register"
    case B2COp => "b2c:"
    case B2BOp => "b2b:"
    case BalanceOp => "balance"
    case StatusOp => "status:"
    case ReversalOp => "reversal:"
    case QrOp => "qr:"
  }

  predicate HasId(op: Operation) {
    op != C2BRegisterOp && op != BalanceOp
  }

  lemma KeyStartsWithHead(op: Operation, id: string)
    ensures |KeyHead(op)| <= |RateKey(op, id)| && RateKey(op, id)[..|KeyHead(op)|] == KeyHead(op)
    ensures HasId(op) ==> RateKey(op, id) == KeyHead(op) + id
    ensures !HasId(op) ==> RateKey(op, id) == KeyHead(op)
  {
  }

  /** The operation whose keys start with the three characters `t`. */
  function OperationOfTag(t: string): Option<Operation> {
    if t == "stk" then Some(StkPushOp)
    else if t == "que" then Some(StkQueryOp)
    else if t == "c2b" then Some(C2BRegisterOp)
    else if t == "b2c" then Some(B2COp)
    else if t == "b2b" then Some(B2BOp)
    else if t == "bal" then Some(BalanceOp)
    else if t == "sta" then Some(StatusOp)
    else if t == "rev" then Some(ReversalOp)
    else if t == "qr:" then Some(QrOp)
    else None
  }

  lemma OperationOfTagInverts(op: Operation)
    ensures |KeyHead(op)| >= 3 && OperationOfTag(KeyHead(op)[..3]) == Some(op)
  {
    match op
    case StkPushOp => assert KeyHead(op)[..3] == "stk";
    case StkQueryOp => assert KeyHead(op)[..3] == "que";
    case C2BRegisterOp => assert KeyHead(op)[..3] == "c2b";
    case B2COp => assert KeyHead(op)[..3] == "b2c";
    case B2BOp => assert KeyHead(op)[..3] == "b2b";
    case BalanceOp => assert KeyHead(op)[..3] == "bal";
    case StatusOp => assert KeyHead(op)[..3] == "sta";
    case ReversalOp => assert KeyHead(op)[..3] == "rev";
    case QrOp => assert KeyHead(op)[..3] == "qr:";
  }

  /** Two operations never share a rate-limit window, and one operation shares a window
      only for the same phone number or identifier. */
  lemma RateKeysDistinct(a: Operation, x: string, b: Operation, y: string)
    requires RateKey(a, x) == RateKey(b, y)
    ensures a == b
    ensures HasId(a) ==> x == y
  {
    KeyStartsWithHead(a, x);
    KeyStartsWithHead(b, y);
    var k := RateKey(a, x);
    assert k[..3] == KeyHead(a)[..3] == KeyHead(b)[..3];
    OperationOfTagInverts(a);
    OperationOfTagInverts(b);
    if HasId(a) {
      var h := KeyHead(a);
      assert (h + x)[|h|..] == x;
      assert (h + y)[|h|..] == y;
    }
  }

  // ---------------------------------------------------------------------------
  // Request guards

  /** What a guarded operation goes on to send: the endpoint, the rate-limit key and the
      amount after `math.floor`, for operations that send one. */
  datatype Call = Call(endpoint: string, rateKey: string, amount: Option<int>)

  predicate LengthWithin(o: Option<string>, n: nat) {
    Truthy(o) && |o.value| <= n
  }

  datatype StkPushRequest = StkPushRequest(
    amount: real, phoneNumber: string, accountReference: Option<string>, transactionDesc: Option<string>)

  function StkPush(req: StkPushRequest): (r: Result<Call, Exception>)
    ensures r.Success? <==>
      req.amount >= 1.0 && LengthWithin(req.accountReference, 13) && Truthy(req.transactionDesc)
      && ValidateAndFormatPhone(req.phoneNumber).Success?
    ensures r.Success? ==>
      && r.value.rateKey == RateKey(StkPushOp, ValidateAndFormatPhone(req.phoneNumber).value)
      && r.value.amount == Some(req.amount.Floor) && r.value.amount.value >= 1
    ensures req.amount < 1.0 ==> r == Failure(InvalidRequest("Amount must be at least 1"))
    ensures req.amount >= 1.0 && !LengthWithin(req.accountReference, 13) ==>
      r == Failure(InvalidRequest("Account reference must be \U{2264} 13 characters"))
    ensures req.amount >= 1.0 && LengthWithin(req.accountReference, 13) && !Truthy(req.transactionDesc) ==>
      r == Failure(InvalidRequest("Transaction description required"))
    ensures req.amount >= 1.0 && LengthWithin(req.accountReference, 13) && Truthy(req.transactionDesc)
            && ValidateAndFormatPhone(req.phoneNumber).Failure? ==>
      r == Failure(ValidateAndFormatPhone(req.phoneNumber).error)
  {
    if req.amount < 1.0 then Failure(InvalidRequest("Amount must be at least 1"))
    else if !LengthWithin(req.accountReference, 13) then
      Failure(InvalidRequest("Account reference must be \U{2264} 13 characters"))
    else if !Truthy(req.transactionDesc) then Failure(InvalidRequest("Transaction description required"))
    else
      var phone :- ValidateAndFormatPhone(req.phoneNumber);
      Success(Call("/mpesa/stkpush/v1/processrequest", RateKey(StkPushOp, phone), Some(req.amount.Floor)))
  }

  function StkQuery(checkoutRequestId: Option<string>): (r: Result<Call, Exception>)
    ensures r.Success? <==> Truthy(checkoutRequestId)
    ensures r.Success? ==> r.value.rateKey == RateKey(StkQueryOp, checkoutRequestId.value)
    ensures r.Failure? ==> r.error == InvalidRequest("CheckoutRequestID required")
  {
    if !Truthy(checkoutRequestId) then Failure(InvalidRequest("CheckoutRequestID required"))
    else Success(Call("/mpesa/stkpushquery/v1/query", RateKey(StkQueryOp, checkoutRequestId.value), None))
  }

  function RegisterC2BUrl(confirmationUrl: Option<string>, validationUrl: Option<string>): (r: Result<Call, Exception>)
    ensures r.Success? <==> Truthy(confirmationUrl) && Truthy(validationUrl)
    ensures r.Success? ==> r.value.rateKey == "c2b:register"
    ensures r.Failure? ==> r.error == InvalidRequest("Both confirmation and validation URLs required")
  {
    if !Truthy(confirmationUrl) || !Truthy(validationUrl) then
      Failure(InvalidRequest("Both confirmation and validation URLs required"))
    else Success(Call("/mpesa/c2b/v1/registerurl", RateKey(C2BRegisterOp, ""), None))
  }

  datatype B2CRequest = B2CRequest(amount: real, phoneNumber: string, remarks: Option<string>)

  function B2CPayment(req: B2CRequest): (r: Result<Call, Exception>)
    ensures r.Success? <==>
      req.amount >= 10.0 && LengthWithin(req.remarks, 100) && ValidateAndFormatPhone(req.phoneNumber).Success?
    ensures r.Success? ==>
      && r.value.rateKey == RateKey(B2COp, ValidateAndFormatPhone(req.phoneNumber).value)
      && r.value.amount == Some(req.amount.Floor) && r.value.amount.value >= 10
    ensures req.amount < 10.0 ==> r == Failure(InvalidRequest("B2C amount must be \U{2265} 10"))
    ensures req.amount >= 10.0 && !LengthWithin(req.remarks, 100) ==>
      r == Failure(InvalidRequest("Remarks must be 1\U{2013}100 characters"))
    ensures req.amount >= 10.0 && LengthWithin(req.remarks, 100) && ValidateAndFormatPhone(req.phoneNumber).Failure? ==>
      r == Failure(ValidateAndFormatPhone(req.phoneNumber).error)
  {
    if req.amount < 10.0 then Failure(InvalidRequest("B2C amount must be \U{2265} 10"))
    else if !LengthWithin(req.remarks, 100) then Failure(InvalidRequest("Remarks must be 1\U{2013}100 characters"))
    else
      var phone :- ValidateAndFormatPhone(req.phoneNumber);
      Success(Call("/mpesa/b2c/v1/paymentrequest", RateKey(B2COp, phone), Some(req.amount.Floor)))
  }

  datatype B2BRequest = B2BRequest(amount: real, partyB: string, remarks: Option<string>, accountReference: Option<string>)

  function B2BPayment(req: B2BRequest): (r: Result<Call, Exception>)
    ensures r.Success? <==>
      req.amount >= 1.0 && LengthWithin(req.remarks, 100) && LengthWithin(req.accountReference, 13)
    ensures r.Success? ==>
      && r.value.rateKey == RateKey(B2BOp, req.partyB)
      && r.value.amount == Some(req.amount.Floor) && r.value.amount.value >= 1
    ensures req.amount < 1.0 ==> r == Failure(InvalidRequest("Amount must be \U{2265} 1"))
    ensures req.amount >= 1.0 && !LengthWithin(req.remarks, 100) ==>
      r == Failure(InvalidRequest("Remarks must be 1\U{2013}100 characters"))
    ensures req.amount >= 1.0 && LengthWithin(req.remarks, 100) && !LengthWithin(req.accountReference, 13) ==>
      r == Failure(InvalidRequest("Account reference must be \U{2264} 13 characters"))
  {
    if req.amount < 1.0 then Failure(InvalidRequest("Amount must be \U{2265} 1"))
    else if !LengthWithin(req.remarks, 100) then Failure(InvalidRequest("Remarks must be 1\U{2013}100 characters"))
    else if !LengthWithin(req.accountReference, 13) then
      Failure(InvalidRequest("Account reference must be \U{2264} 13 characters"))
    else Success(Call("/mpesa/b2b/v1/paymentrequest", RateKey(B2BOp, req.partyB), Some(req.amount.Floor)))
  }

  /** `accountBalance` has no guard. */
  function AccountBalanceCall(): (r: Call)
    ensures r.rateKey == "balance" && r.amount.None?
  {
    Call("/mpesa/accountbalance/v1/query", RateKey(BalanceOp, ""), None)
  }

  function TransactionStatus(transactionId: Option<string>): (r: Result<Call, Exception>)
    ensures r.Success? <==> Truthy(transactionId)
    ensures r.Success? ==> r.value.rateKey == RateKey(StatusOp, transactionId.value)
    ensures r.Failure? ==> r.error == InvalidRequest("Transaction ID required")
  {
    if !Truthy(transactionId) then Failure(InvalidRequest("Transaction ID required"))
    else Success(Call("/mpesa/transactionstatus/v1/query", RateKey(StatusOp, transactionId.value), None))
  }

  function ReversalCall(transactionId: Option<string>, amount: real): (r: Result<Call, Exception>)
    ensures r.Success? <==> Truthy(transactionId) && amount >= 1.0
    ensures r.Success? ==>
      r.value.rateKey == RateKey(ReversalOp, transactionId.value) && r.value.amount == Some(amount.Floor)
      && r.value.amount.value >= 1
    ensures !Truthy(transactionId) ==> r == Failure(InvalidRequest("Transaction ID required"))
    ensures Truthy(transactionId) && amount < 1.0 ==> r == Failure(InvalidRequest("Amount must be \U{2265} 1"))
  {
    if !Truthy(transactionId) then Failure(InvalidRequest("Transaction ID required"))
    else if amount < 1.0 then Failure(InvalidRequest("Amount must be \U{2265} 1"))
    else Success(Call("/mpesa/reversal/v1/request", RateKey(ReversalOp, transactionId.value), Some(amount.Floor)))
  }

  datatype DynamicQRRequest = DynamicQRRequest(merchantName: Option<string>, refNo: Option<string>, amount: real)

  function GenerateDynamicQR(req: DynamicQRRequest): (r: Result<Call, Exception>)
    ensures r.Success? <==> LengthWithin(req.merchantName, 26) && LengthWithin(req.refNo, 12) && req.amount >= 1.0
    ensures r.Success? ==>
      r.value.rateKey == RateKey(QrOp, req.refNo.value) && r.value.amount == Some(req.amount.Floor)
      && r.value.amount.value >= 1
    ensures !LengthWithin(req.merchantName, 26) ==>
      r == Failure(InvalidRequest("Merchant name must be \U{2264} 26 characters"))
    ensures LengthWithin(req.merchantName, 26) && !LengthWithin(req.refNo, 12) ==>
      r == Failure(InvalidRequest("Reference number must be \U{2264} 12 characters"))
    ensures LengthWithin(req.merchantName, 26) && LengthWithin(req.refNo, 12) && req.amount < 1.0 ==>
      r == Failure(InvalidRequest("Amount must be \U{2265} 1"))
  {
    if !LengthWithin(req.merchantName, 26) then
      Failure(InvalidRequest("Merchant name must be \U{2264} 26 characters"))
    else if !LengthWithin(req.refNo, 12) then
      Failure(InvalidRequest("Reference number must be \U{2264} 12 characters"))
    else if req.amount < 1.0 then Failure(InvalidRequest("Amount must be \U{2265} 1"))
    else Success(Call("/mpesa/qrcode/v1/generate", RateKey(QrOp, req.refNo.value), Some(req.amount.Floor)))
  }

  // ---------------------------------------------------------------------------
  // One request attempt

  /** What the transport did for one attempt: a response (its status and whether its
      body parsed as JSON), a timeout, or another transport exception. */
  datatype Exchange =
    | Responded(status: int, json: Result<ResponseBody, Exception>)
    | TimedOut
    | TransportFailed(error: Exception)

  function TimedOutError(endpoint: string): Exception {
    Mpesa(TimeoutError("Request timed out for " + endpoint, NoDetails))
  }

  /** Any other exception, wrapped as a retryable network error. */
  function WrapNetwork(endpoint: string, e: Exception): Exception {
    Mpesa(NetworkError("Network error on " + endpoint + ": " + Describe(e), true, Cause(e)))
  }

  predicate Is2xx(status: int) {
    200 <= status < 300
  }

  /** One attempt of `makeRequest`, as written, given the limiter's verdict. A non-2xx
      response whose body parses is returned like a success; a typed error raised for one
      whose body does not parse is re-wrapped, because the re-raise test looks for an
      attribute no error has. */
  function AttemptAsWritten(endpoint: string, limit: Outcome<Exception>, ex: Exchange): (r: Result<ResponseBody, Exception>)
    ensures limit.Fail? ==> r == Failure(limit.error)
    ensures limit.Pass? && ex.Responded? && ex.json.Success? ==> r == Success(ex.json.value)
    ensures limit.Pass? && ex.Responded? && !Is2xx(ex.status) && ex.json.Failure? ==>
      r == Failure(WrapNetwork(endpoint, Mpesa(ParseApiError(ex.status, EmptyBody))))
  {
    if limit.Fail? then Failure(limit.error)
    else match ex
      case TimedOut => Failure(TimedOutError(endpoint))
      case TransportFailed(e) => Failure(WrapNetwork(endpoint, e))
      case Responded(status, json) =>
        if !Is2xx(status) && json.Failure? then
          Failure(WrapNetwork(endpoint, Mpesa(ParseApiError(status, EmptyBody))))
        else if json.Failure? then Failure(WrapNetwork(endpoint, json.error))
        else Success(json.value)
  }

  /** One attempt as intended: a non-2xx response raises the typed error for its status
      and body (an empty body when it does not parse), typed errors propagate unchanged,
      and only other failures become network errors. */
  function Attempt(endpoint: string, limit: Outcome<Exception>, ex: Exchange): (r: Result<ResponseBody, Exception>)
    ensures r.Success? <==> limit.Pass? && ex.Responded? && Is2xx(ex.status) && ex.json.Success?
    ensures r.Success? ==> r.value == ex.json.value
    ensures limit.Fail? ==> r == Failure(limit.error)
    ensures limit.Pass? && ex.Responded? && !Is2xx(ex.status) ==>
      r == Failure(Mpesa(ParseApiError(ex.status, if ex.json.Success? then ex.json.value else EmptyBody)))
    ensures limit.Pass? && ex.TimedOut? ==> r == Failure(TimedOutError(endpoint))
    ensures limit.Pass? && ex.TransportFailed? && ex.error.Mpesa? ==> r == Failure(ex.error)
  {
    if limit.Fail? then Failure(limit.error)
    else match ex
      case TimedOut => Failure(TimedOutError(endpoint))
      case TransportFailed(e) => if e.Mpesa? then Failure(e) else Failure(WrapNetwork(endpoint, e))
      case Responded(status, json) =>
        if !Is2xx(status) then
          Failure(Mpesa(ParseApiError(status, if json.Success? then json.value else EmptyBody)))
        else if json.Failure? then Failure(WrapNetwork(endpoint, json.error))
        else Success(json.value)
  }

  /** Under the default retry codes, a failed response is retried iff its status is 408,
      429 or a server error. */
  lemma AttemptRetriedOnlyWhenTransient(endpoint: string, status: int, json: Result<ResponseBody, Exception>)
    requires 100 <= status && !Is2xx(status)
    ensures var r := Attempt(endpoint, Pass, Responded(status, json));
      r.Failure? && (IsRetryableError(r.error, DefaultRetryableStatusCodes) <==> status == 408 || status == 429 || status >= 500)
  {
    var body := if json.Success? then json.value else EmptyBody;
    ParsedErrorRetryable(status, body);
  }

  /** As written, a 4xx response with a JSON body comes back as a success. */
  lemma Non2xxReturnedAsSuccess(endpoint: string, body: ResponseBody)
    ensures AttemptAsWritten(endpoint, Pass, Responded(400, Success(body))) == Success(body)
    ensures Attempt(endpoint, Pass, Responded(400, Success(body))) == Failure(Mpesa(ParseApiError(400, body)))
    ensures Attempt(endpoint, Pass, Responded(400, Success(body))).error.err.ValidationError?
  {
  }

  /** As written, an authentication failure whose body does not parse reaches the retry
      loop as a retryable network error, so it is retried; as intended it is an
      authentication error and is not. */
  lemma TypedErrorRewrapped(endpoint: string, e: Exception)
    ensures var r := AttemptAsWritten(endpoint, Pass, Responded(401, Failure(e)));
      r.Failure? && r.error.err.NetworkError? && IsRetryableError(r.error, DefaultRetryableStatusCodes)
    ensures var r := Attempt(endpoint, Pass, Responded(401, Failure(e)));
      r.Failure? && r.error.err.AuthError? && !IsRetryableError(r.error, DefaultRetryableStatusCodes)
  {
  }

  // ---------------------------------------------------------------------------
  // Client construction

  /** The rate-limit options; every key may be absent. */
  datatype RateLimitOption = RateLimitOption(
    enabled: Option<bool>, maxRequests: Option<int>, windowMs: Option<int>, redis: Option<CounterStore>)

  /** The callback options; every key may be absent. A key present with the value None
      reads like an absent one, but still makes the dictionary non-empty:
      `noneValued` counts such keys. `logger` says whether a logger is given; the model
      does not use it otherwise, but it too makes the dictionary non-empty. */
  datatype HandlerOptions = HandlerOptions(
    hooks: Hooks, validateIp: Option<bool>, allowedIps: Option<seq<string>>, logger: bool, noneValued: nat)

  datatype ClientOptions = ClientOptions(
    callbackOptions: Option<HandlerOptions>,
    retryOptions: Option<RetryOverrides>,
    rateLimitOptions: Option<RateLimitOption>,
    requestTimeout: Option<int>)

  predicate NoRateKeys(o: RateLimitOption) {
    o.enabled.None? && o.maxRequests.None? && o.windowMs.None? && o.redis.None?
  }

  /** The callback options dictionary is empty, hence falsy. */
  predicate NoHandlerKeys(o: HandlerOptions) {
    && o.hooks.onSuccess.None? && o.hooks.onFailure.None? && o.hooks.onCallback.None?
    && o.hooks.onC2BConfirmation.None? && o.hooks.onC2BValidation.None?
    && o.hooks.onB2CResult.None? && o.hooks.onB2BResult.None? && o.hooks.onAccountBalance.None?
    && o.hooks.onTransactionStatus.None? && o.hooks.onReversal.None? && o.hooks.isDuplicate.None?
    && o.validateIp.None? && o.allowedIps.None? && !o.logger && o.noneValued == 0
  }

  /** Which limiter the constructor builds. */
  datatype LimiterChoice = NoLimit | InMemory(config: LimitConfig) | SharedStore(store: CounterStore, config: LimitConfig)

  function SelectLimiter(options: Option<ClientOptions>): (c: LimiterChoice)
    ensures c.NoLimit? <==>
      options.None? || options.value.rateLimitOptions.None? || NoRateKeys(options.value.rateLimitOptions.value)
      || options.value.rateLimitOptions.value.enabled == Some(false)
    ensures c.SharedStore? <==> !c.NoLimit? && options.value.rateLimitOptions.value.redis.Some?
    ensures c.SharedStore? ==> c.store == options.value.rateLimitOptions.value.redis.value
    ensures !c.NoLimit? ==>
      var o := options.value.rateLimitOptions.value;
      c.config == LimitConfig(o.maxRequests.GetOr(100), o.windowMs.GetOr(60000), "mpesa")
  {
    if options.None? || options.value.rateLimitOptions.None? then NoLimit
    else
      var o := options.value.rateLimitOptions.value;
      if NoRateKeys(o) || o.enabled == Some(false) then NoLimit
      else
        var config := LimitConfig(o.maxRequests.GetOr(100), o.windowMs.GetOr(60000), "mpesa");
        if o.redis.Some? then SharedStore(o.redis.value, config) else InMemory(config)
  }

  const NotCallable := TypeError("'dict' object is not callable")

  /** The callback handler the constructor builds, as written: the whole options object
      lands in the first positional parameter, the success handler, so every other
      option keeps its default. */
  function ClientHandlerAsWritten(options: Option<HandlerOptions>): (h: CallbackHandler)
    ensures h.validateIp && h.allowedIps == SafaricomIps
    ensures h.hooks.onFailure.None? && h.hooks.onCallback.None? && h.hooks.isDuplicate.None?
    ensures h.hooks.onC2BValidation.None? && h.hooks.onC2BConfirmation.None?
    ensures h.hooks.onB2CResult.None? && h.hooks.onAccountBalance.None?
    ensures h.hooks.onTransactionStatus.None? && h.hooks.onReversal.None?
    ensures h.hooks.onSuccess.Some? <==> options.Some? && !NoHandlerKeys(options.value)
  {
    var onSuccess: Option<StkResult -> Outcome<Exception>> :=
      if options.Some? && !NoHandlerKeys(options.value) then Some((p: StkResult) => Fail(NotCallable)) else None;
    NewCallbackHandler(NoHooks.(onSuccess := onSuccess), true, None)
  }

  /** The callback handler as intended: each option reaches its own parameter. */
  function ClientHandler(options: Option<HandlerOptions>): (h: CallbackHandler)
    ensures options.None? ==> h.validateIp && h.allowedIps == SafaricomIps
    ensures options.Some? ==> h.validateIp == options.value.validateIp.GetOr(true)
    ensures options.Some? ==> h.hooks == options.value.hooks
    ensures options.Some? && options.value.allowedIps.Some? && options.value.allowedIps.value != [] ==>
      h.allowedIps == options.value.allowedIps.value
    ensures options.Some? && (options.value.allowedIps.None? || options.value.allowedIps.value == []) ==>
      h.allowedIps == SafaricomIps
  {
    match options
    case None => NewCallbackHandler(NoHooks, true, None)
    case Some(o) => NewCallbackHandler(o.hooks, o.validateIp.GetOr(true), o.allowedIps)
  }

  /** As written, any non-empty callback options make every successful STK callback from
      a trusted sender fail with a TypeError after parsing; as intended, the registered
      success handler decides. */
  lemma CallbackOptionsMisrouted(o: HandlerOptions, p: StkResult)
    requires !NoHandlerKeys(o) && p.isSuccess
    ensures DispatchStk(ClientHandlerAsWritten(Some(o)).hooks, p) == Dispatch(Fail(NotCallable), [OnSuccess])
    ensures o.hooks.isDuplicate.None? && o.hooks.onCallback.None? && o.hooks.onSuccess.Some? ==>
      DispatchStk(ClientHandler(Some(o)).hooks, p) == Dispatch(o.hooks.onSuccess.value(p), [OnSuccess])
  {
  }

  /** As written, turning IP validation off has no effect. */
  lemma ValidateIpOptionIgnored(o: HandlerOptions, ip: string)
    requires o.validateIp == Some(false)
    ensures ValidateCallbackIp(ClientHandlerAsWritten(Some(o)), ip) <==> ip in SafaricomIps
    ensures ValidateCallbackIp(ClientHandler(Some(o)), ip)
  {
  }

  // ---------------------------------------------------------------------------
  // Acknowledgments

  /** `handleStkCallback`: accepted when handling ran to completion, else an internal
      error. */
  function StkAck(h: CallbackHandler, payload: StkPayload, ip: Option<string>): (a: Ack)
    ensures a.resultCode == 0 <==> StkHandling(h, payload, ip).outcome.Pass?
    ensures a == Ack(0, "Accepted") || a == Ack(1, "Internal Error")
  {
    if StkHandling(h, payload, ip).outcome.Pass? then CreateCallbackResponse(true, None)
    else CreateCallbackResponse(false, Some("Internal Error"))
  }

  /** `handleC2BValidation`: the validator's verdict, or a failed validation. */
  function C2BValidationAck(h: CallbackHandler, payload: C2BPayload): (a: Ack)
    ensures a.resultCode == 0 <==> HandleC2BValidation(h, payload) == Success(true)
    ensures HandleC2BValidation(h, payload) == Success(true) ==> a == Ack(0, "Accepted")
    ensures HandleC2BValidation(h, payload) == Success(false) ==> a == Ack(1, "Rejected")
    ensures HandleC2BValidation(h, payload).Failure? ==> a == Ack(1, "Validation Failed")
  {
    match HandleC2BValidation(h, payload)
    case Success(valid) => CreateCallbackResponse(valid, Some(if valid then "Accepted" else "Rejected"))
    case Failure(_) => CreateCallbackResponse(false, Some("Validation Failed"))
  }

  /** `handleC2BConfirmation`. */
  function C2BConfirmationAck(h: CallbackHandler, payload: C2BPayload): (a: Ack)
    ensures a.resultCode == 0 <==> HandleC2BConfirmation(h, payload).outcome.Pass?
    ensures a == Ack(0, "Accepted") || a == Ack(1, "Processing Failed")
  {
    if HandleC2BConfirmation(h, payload).outcome.Pass? then CreateCallbackResponse(true, None)
    else CreateCallbackResponse(false, Some("Processing Failed"))
  }

  /** The handler a result wrapper awaits for each kind. */
  function ResultHook(hooks: Hooks, kind: ResultKind): Option<ResultRecord -> Outcome<Exception>> {
    match kind
    case B2C => hooks.onB2CResult
    case B2B => hooks.onB2BResult
    case AccountBalance => hooks.onAccountBalance
    case TransactionStatus => hooks.onTransactionStatus
    case Reversal => hooks.onReversal
  }

  /** `handleB2CCallback`, `handleAccountBalanceCallback`,
      `handleTransactionStatusCallback` and `handleReversalCallback`: the parsed result's
      success when parsing and its handler went through, else a processing failure. */
  function ResultAck(h: CallbackHandler, kind: ResultKind, payload: ResultPayload): (a: Ack)
    ensures a.resultCode == 0 <==>
      && ParsedResult(kind, payload).Success?
      && ParsedResult(kind, payload).value.isSuccess
      && (ResultHook(h.hooks, kind).None? || ResultHook(h.hooks, kind).value(ParsedResult(kind, payload).value).Pass?)
    ensures a == Ack(0, "Accepted") || a == Ack(1, "Rejected") || a == Ack(1, "Processing Failed")
    ensures a == Ack(1, "Rejected") <==>
      && ParsedResult(kind, payload).Success?
      && !ParsedResult(kind, payload).value.isSuccess
      && (ResultHook(h.hooks, kind).None? || ResultHook(h.hooks, kind).value(ParsedResult(kind, payload).value).Pass?)
  {
    match ParsedResult(kind, payload)
    case Failure(_) => CreateCallbackResponse(false, Some("Processing Failed"))
    case Success(parsed) =>
      var hook := ResultHook(h.hooks, kind);
      if hook.Some? && hook.value(parsed).Fail? then CreateCallbackResponse(false, Some("Processing Failed"))
      else CreateCallbackResponse(parsed.isSuccess, None)
  }

  /** Whatever a callback carries, every entry point answers with result code 0 or 1 and
      a non-empty description. */
  lemma AcksAlwaysWellFormed(h: CallbackHandler, kind: ResultKind, stk: StkPayload, ip: Option<string>, c2b: C2BPayload, result: ResultPayload)
    ensures var a := StkAck(h, stk, ip); (a.resultCode == 0 || a.resultCode == 1) && a.resultDesc != ""
    ensures var a := C2BValidationAck(h, c2b); (a.resultCode == 0 || a.resultCode == 1) && a.resultDesc != ""
    ensures var a := C2BConfirmationAck(h, c2b); (a.resultCode == 0 || a.resultCode == 1) && a.resultDesc != ""
    ensures var a := ResultAck(h, kind, result); (a.resultCode == 0 || a.resultCode == 1) && a.resultDesc != ""
  {
  }

  /** As written, a client built with callback options acknowledges every successful STK
      callback from an unchecked sender as an internal error. */
  lemma SuccessfulStkCallbackRejected(o: HandlerOptions, payload: StkPayload)
    requires !NoHandlerKeys(o)
    requires ParsedStk(payload).Success? && ParsedStk(payload).value.isSuccess
    ensures StkAck(ClientHandlerAsWritten(Some(o)), payload, None) == Ack(1, "Internal Error")
  {
    CallbackOptionsMisrouted(o, ParsedStk(payload).value);
  }

  // ---------------------------------------------------------------------------
  // The client object

  datatype Limiter = NoLimiter | Local(local: RateLimiter) | Shared(shared: RedisRateLimiter)

  class MpesaClient {
    const callbackHandler: CallbackHandler
    const retryOptions: Option<RetryOverrides>
    const requestTimeoutMs: int
    const limiter: Limiter

    /** Builds the callback handler and, as `SelectLimiter` decides, a fresh limiter. */
    constructor (options: Option<ClientOptions>)
      ensures callbackHandler == ClientHandler(if options.Some? then options.value.callbackOptions else None)
      ensures retryOptions == (if options.Some? then options.value.retryOptions else None)
      ensures requestTimeoutMs == (if options.Some? then options.value.requestTimeout.GetOr(30000) else 30000)
      ensures limiter.NoLimiter? <==> SelectLimiter(options).NoLimit?
      ensures limiter.Local? ==>
        && SelectLimiter(options) == InMemory(limiter.local.config)
        && fresh(limiter.local) && limiter.local.store == map[] && limiter.local.Valid()
      ensures limiter.Shared? ==>
        && SelectLimiter(options) == SharedStore(limiter.shared.redis, limiter.shared.config)
        && fresh(limiter.shared)
    {
      callbackHandler := ClientHandler(if options.Some? then options.value.callbackOptions else None);
      retryOptions := if options.Some? then options.value.retryOptions else None;
      requestTimeoutMs := if options.Some? then options.value.requestTimeout.GetOr(30000) else 30000;
      var choice := SelectLimiter(options);
      match choice {
        case NoLimit =>
          limiter := NoLimiter;
        case InMemory(config) =>
          var l := new RateLimiter(config.maxRequests, config.windowMs, None);
          limiter := Local(l);
        case SharedStore(store, config) =>
          var s := new RedisRateLimiter(store, config.maxRequests, config.windowMs, None);
          limiter := Shared(s);
      }
    }

    method HandleStkCallback(payload: StkPayload, ip: Option<string>) returns (a: Ack)
      ensures a == StkAck(callbackHandler, payload, ip)
    {
      var d := HandleCallback(callbackHandler, payload, ip);
      if d.outcome.Pass? {
        a := CreateCallbackResponse(true, None);
      } else {
        a := CreateCallbackResponse(false, Some("Internal Error"));
      }
    }

    method HandleResultCallback(kind: ResultKind, payload: ResultPayload) returns (a: Ack)
      requires kind != B2B
      ensures a == ResultAck(callbackHandler, kind, payload)
    {
      var parsed := ParseResultCallback(kind, payload);
      if parsed.Failure? {
        return CreateCallbackResponse(false, Some("Processing Failed"));
      }
      var hook := ResultHook(callbackHandler.hooks, kind);
      if hook.Some? {
        var result := hook.value(parsed.value);
        if result.Fail? {
          return CreateCallbackResponse(false, Some("Processing Failed"));
        }
      }
      a := CreateCallbackResponse(parsed.value.isSuccess, None);
    }

    /** Stops an in-memory limiter's sweep and empties its windows; a shared limiter's
        store is left alone. */
    method Destroy()
      modifies if limiter.Local? then {limiter.local} else {}
      ensures limiter.Local? ==> limiter.local.store == map[] && !limiter.local.cleanupScheduled
      ensures limiter.Shared? ==> unchanged(limiter.shared.redis)
    {
      if limiter.Local? {
        limiter.local.Destroy();
      }
    }
  }
}
