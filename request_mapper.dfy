/** RequestMapper: turns the service's payment requests into SasaPay request
    bodies. It fills defaults with `||` (so an empty string is replaced as well as a
    missing value), normalises Kenyan phone numbers to the `254…` form, and renders
    amounts with two decimals. */
module RequestMapper {
  import opened Wrappers
  import opened JsText
  import opened SasaPayDto

  /** The two configuration values the mapper reads. */
  datatype MapperConfig = MapperConfig(merchantCode: Option<string>, callbackUrl: Option<string>)

  /** The mapper's read-only state. */
  datatype Mapper = Mapper(merchantCode: string, defaultCallbackUrl: string)

  /** The constructor: a missing or empty setting becomes the empty string. */
  function NewMapper(config: MapperConfig): (m: Mapper)
    ensures Truthy(config.merchantCode) ==> m.merchantCode == config.merchantCode.value
    ensures !Truthy(config.merchantCode) ==> m.merchantCode == ""
    ensures Truthy(config.callbackUrl) ==> m.defaultCallbackUrl == config.callbackUrl.value
    ensures !Truthy(config.callbackUrl) ==> m.defaultCallbackUrl == ""
  {
    Mapper(Or(config.merchantCode, ""), Or(config.callbackUrl, ""))
  }

  datatype C2BPaymentRequest = C2BPaymentRequest(
    phoneNumber: string,
    amount: int,
    accountReference: string,
    description: Option<string>,
    currency: Option<string>,
    networkCode: Option<string>,
    callbackUrl: Option<string>)

  datatype B2CPaymentRequest = B2CPaymentRequest(
    phoneNumber: string,
    amount: int,
    merchantReference: string,
    reason: Option<string>,
    currency: Option<string>,
    channel: Option<string>,
    callbackUrl: Option<string>)

  datatype B2BPaymentRequest = B2BPaymentRequest(
    receiverMerchantCode: string,
    amount: int,
    merchantReference: string,
    reason: Option<string>,
    currency: Option<string>,
    callbackUrl: Option<string>,
    accountReference: Option<string>,
    receiverAccountType: string,
    networkCode: string)

  datatype TransactionStatusRequest = TransactionStatusRequest(
    merchantCode: string,
    checkoutRequestId: Option<string>,
    merchantRequestId: Option<string>)

  // ---------------------------------------------------------------- phone numbers

  /** The class `[\s\-()]`. */
  predicate IsSeparator(c: char) {
    IsWhitespace(c) || c == '-' || c == '(' || c == ')'
  }

  predicate NoSeparators(s: string) {
    forall i :: 0 <= i < |s| ==> !IsSeparator(s[i])
  }

  /** `s.replace(/[\s\-()]/g, '')` */
  function RemoveSeparators(s: string): (r: string)
    ensures NoSeparators(r)
    ensures |r| <= |s|
    decreases |s|
  {
    if s == [] then []
    else (if IsSeparator(s[0]) then [] else [s[0]]) + RemoveSeparators(s[1..])
  }

  /** Removing separators works piecewise: it keeps the other characters in order. */
  lemma {:induction false} RemoveSeparatorsConcat(a: string, b: string)
    ensures RemoveSeparators(a + b) == RemoveSeparators(a) + RemoveSeparators(b)
    decreases |a|
  {
    if a == [] {
      assert a + b == b;
    } else {
      var head := if IsSeparator(a[0]) then [] else [a[0]];
      assert (a + b)[0] == a[0];
      assert (a + b)[1..] == a[1..] + b;
      assert RemoveSeparators(a + b) == head + RemoveSeparators(a[1..] + b);
      RemoveSeparatorsConcat(a[1..], b);
      assert RemoveSeparators(a) == head + RemoveSeparators(a[1..]);
      assert head + (RemoveSeparators(a[1..]) + RemoveSeparators(b))
          == (head + RemoveSeparators(a[1..])) + RemoveSeparators(b);
    }
  }

  /** Text without separators is left as it is. */
  lemma {:induction false} RemoveSeparatorsNoop(s: string)
    requires NoSeparators(s)
    ensures RemoveSeparators(s) == s
    decreases |s|
  {
    if s != [] {
      assert !IsSeparator(s[0]);
      RemoveSeparatorsNoop(s[1..]);
    }
  }

  /** Removing separators twice removes nothing more. */
  lemma RemoveSeparatorsIdempotent(s: string)
    ensures RemoveSeparators(RemoveSeparators(s)) == RemoveSeparators(s)
  {
    RemoveSeparatorsNoop(RemoveSeparators(s));
  }

  /** Step 2: a leading `+` is dropped. */
  function DropPlus(s: string): string {
    if StartsWith(s, "+") then s[1..] else s
  }

  /** Step 3: a leading `0` becomes `254`. */
  function ReplaceTrunkPrefix(s: string): string {
    if StartsWith(s, "0") then "254" + s[1..] else s
  }

  /** Step 4: `254` is put in front when it is not there yet. */
  function EnsureCountryCode(s: string): string {
    if !StartsWith(s, "254") then "254" + s else s
  }

  /** Adding the digits 254 in front of text without separators gives text
      without separators. */
  lemma PrefixNoSeparators(s: string)
    requires NoSeparators(s)
    ensures NoSeparators("254" + s)
  {
    assert forall i :: 0 <= i < |"254" + s| ==> ("254" + s)[i] == if i < 3 then "254"[i] else s[i - 3];
  }

  /** `normalizePhoneNumber`: the four steps in order. */
  function NormalizePhoneNumber(phone: string): (r: string)
    ensures StartsWith(r, "254")
    ensures NoSeparators(r)
  {
    var s1 := RemoveSeparators(phone);
    var s2 := DropPlus(s1);
    assert NoSeparators(s2);
    var s3 := ReplaceTrunkPrefix(s2);
    assert NoSeparators(s3) by {
      if StartsWith(s2, "0") { PrefixNoSeparators(s2[1..]); }
    }
    assert NoSeparators(EnsureCountryCode(s3)) by {
      if !StartsWith(s3, "254") { PrefixNoSeparators(s3); }
    }
    EnsureCountryCode(s3)
  }

  /** The outcome of the prefix steps on the number with its separators and
      leading `+` removed: `0…` becomes `254…` in place of the `0`, `254…` stays,
      and anything else gets `254` in front. */
  lemma NormalizePhoneNumberCases(phone: string)
    ensures var s := DropPlus(RemoveSeparators(phone));
      && (StartsWith(s, "0") ==> NormalizePhoneNumber(phone) == "254" + s[1..])
      && (!StartsWith(s, "0") && StartsWith(s, "254") ==> NormalizePhoneNumber(phone) == s)
      && (!StartsWith(s, "0") && !StartsWith(s, "254") ==> NormalizePhoneNumber(phone) == "254" + s)
  {
    var s := DropPlus(RemoveSeparators(phone));
    if StartsWith(s, "0") {
      assert StartsWith("254" + s[1..], "254");
    }
  }

  /** Separators are removed before any prefix handling, so where they stand makes
      no difference. */
  lemma NormalizeIgnoresSeparators(phone: string)
    ensures NormalizePhoneNumber(RemoveSeparators(phone)) == NormalizePhoneNumber(phone)
  {
    RemoveSeparatorsIdempotent(phone);
  }

  /** Normalising a normalised number changes nothing. */
  lemma NormalizeIdempotent(phone: string)
    ensures NormalizePhoneNumber(NormalizePhoneNumber(phone)) == NormalizePhoneNumber(phone)
  {
    var n := NormalizePhoneNumber(phone);
    RemoveSeparatorsNoop(n);
    assert n[0] == '2';
    assert DropPlus(n) == n;
    assert ReplaceTrunkPrefix(n) == n;
  }

  /** For text without separators only the prefix steps act. */
  lemma NormalizeWithoutSeparators(phone: string)
    requires NoSeparators(phone)
    ensures NormalizePhoneNumber(phone) == EnsureCountryCode(ReplaceTrunkPrefix(DropPlus(phone)))
  {
    RemoveSeparatorsNoop(phone);
  }

  /** A string of decimal digits has no separators. */
  lemma DigitsNoSeparators(s: string)
    requires forall i :: 0 <= i < |s| ==> IsDigit(s[i])
    ensures NoSeparators(s)
  {
  }

  /** The digits a caller may put after a country or trunk prefix: they do not
      themselves start with `0` or `254`. */
  predicate LocalDigits(digits: string) {
    |digits| > 0 && (forall i :: 0 <= i < |digits| ==> IsDigit(digits[i]))
    && digits[0] != '0' && !StartsWith(digits, "254")
  }

  /** Bare local digits get the country code in front. */
  lemma NormalizeBare(digits: string)
    requires LocalDigits(digits)
    ensures NormalizePhoneNumber(digits) == "254" + digits
  {
    DigitsNoSeparators(digits);
    NormalizeWithoutSeparators(digits);
  }

  /** The trunk prefix `0` is replaced by the country code. */
  lemma NormalizeTrunk(digits: string)
    requires LocalDigits(digits)
    ensures NormalizePhoneNumber("0" + digits) == "254" + digits
  {
    var trunk := "0" + digits;
    DigitsNoSeparators(trunk);
    NormalizeWithoutSeparators(trunk);
    assert trunk[1..] == digits;
  }

  /** A number in international form is kept. */
  lemma NormalizeInternational(digits: string)
    requires LocalDigits(digits)
    ensures NormalizePhoneNumber("254" + digits) == "254" + digits
  {
    DigitsNoSeparators("254" + digits);
    NormalizeWithoutSeparators("254" + digits);
    assert StartsWith("254" + digits, "254");
  }

  /** The `+` of the international form is dropped. */
  lemma NormalizePlus(digits: string)
    requires LocalDigits(digits)
    ensures NormalizePhoneNumber("+254" + digits) == "254" + digits
  {
    var d := "254" + digits;
    var plus := "+" + d;
    assert "+254" + digits == plus;
    DigitsNoSeparators(d);
    assert NoSeparators(plus) by {
      assert forall i :: 1 <= i < |plus| ==> plus[i] == d[i - 1];
    }
    RemoveSeparatorsNoop(plus);
    assert plus[1..] == d;
    assert DropPlus(plus) == d;
    assert d[0] == '2' && StartsWith(d, "254");
    assert ReplaceTrunkPrefix(d) == d;
    assert EnsureCountryCode(d) == d;
  }

  /** The three usual spellings of a local number, such as 0712 345 678,
      +254 712 345 678 and 254 712 345 678, agree. */
  lemma NormalizeExamples(local: string)
    requires LocalDigits(local)
    ensures NormalizePhoneNumber("0" + local) == "254" + local
    ensures NormalizePhoneNumber("+254" + local) == "254" + local
    ensures NormalizePhoneNumber("254" + local) == "254" + local
  {
    NormalizeTrunk(local);
    NormalizePlus(local);
    NormalizeInternational(local);
  }

  // ---------------------------------------------------------------- amounts

  function TwoDigits(n: nat): (r: string)
    requires n < 100
    ensures |r| == 2 && IsDigit(r[0]) && IsDigit(r[1])
  {
    [DigitChar(n / 10), DigitChar(n % 10)]
  }

  /** `amount.toFixed(2)` for a non-negative amount of minor units. */
  function FormatMinorUnits(n: nat): (r: string)
    ensures |r| >= 4 && r[|r| - 3] == '.'
    ensures forall i :: 0 <= i < |r| && i != |r| - 3 ==> IsDigit(r[i])
  {
    NatToString(n / 100) + "." + TwoDigits(n % 100)
  }

  /** `amount.toFixed(2)`: a minus sign, then the rendering of the magnitude. */
  function FormatAmount(amount: int): (r: string)
    ensures |r| >= 4 && r[|r| - 3] == '.'
    ensures amount >= 0 ==> r == FormatMinorUnits(amount)
    ensures amount < 0 ==> r == "-" + FormatMinorUnits(-amount)
  {
    if amount < 0 then "-" + FormatMinorUnits(-amount) else FormatMinorUnits(amount)
  }

  /** Reading a rendered amount back: the whole units times 100 plus the two
      decimals. */
  function ParseMinorUnits(s: string): nat
    requires |s| >= 4 && s[|s| - 3] == '.'
    requires forall i :: 0 <= i < |s| && i != |s| - 3 ==> IsDigit(s[i])
  {
    DecimalValue(s[..|s| - 3]) * 100 + DecimalValue(s[|s| - 2..])
  }

  /** The rendering loses nothing: it reads back as the same amount. */
  lemma FormatAmountRoundTrip(n: nat)
    ensures ParseMinorUnits(FormatAmount(n)) == n
  {
    var whole := NatToString(n / 100);
    var frac := TwoDigits(n % 100);
    var r := whole + "." + frac;
    assert r[..|r| - 3] == whole;
    assert r[|r| - 2..] == frac;
    NatToStringRoundTrip(n / 100);
    assert frac[..1] == [frac[0]];
    assert DecimalValue(frac) == DecimalValue(frac[..1]) * 10 + DigitValue(frac[1]);
    assert DecimalValue(frac[..1][..0]) == 0;
  }

  // ---------------------------------------------------------------- request bodies

  /** `mapC2BRequest` */
  function MapC2BRequest(m: Mapper, req: C2BPaymentRequest): (dto: C2BRequestDto)
    ensures dto.MerchantCode == m.merchantCode && dto.AccountReference == req.accountReference
    ensures dto.PhoneNumber == NormalizePhoneNumber(req.phoneNumber) && StartsWith(dto.PhoneNumber, "254")
    ensures dto.Amount == FormatAmount(req.amount)
    ensures dto.NetworkCode == if Truthy(req.networkCode) then req.networkCode.value else NETWORK_MPESA
    ensures dto.TransactionDesc == if Truthy(req.description) then req.description.value else "Payment"
    ensures dto.Currency == if Truthy(req.currency) then req.currency.value else "KES"
    ensures dto.CallBackURL == if Truthy(req.callbackUrl) then req.callbackUrl.value else m.defaultCallbackUrl
  {
    var callbackUrl := Or(req.callbackUrl, m.defaultCallbackUrl);
    C2BRequestDto(
      MerchantCode := m.merchantCode,
      NetworkCode := Or(req.networkCode, NETWORK_MPESA),
      PhoneNumber := NormalizePhoneNumber(req.phoneNumber),
      TransactionDesc := Or(req.description, "Payment"),
      AccountReference := req.accountReference,
      Currency := Or(req.currency, "KES"),
      Amount := FormatAmount(req.amount),
      CallBackURL := callbackUrl)
  }

  /** `mapB2CRequest` */
  function MapB2CRequest(m: Mapper, req: B2CPaymentRequest): (dto: B2CRequestDto)
    ensures dto.MerchantCode == m.merchantCode && dto.MerchantTransactionReference == req.merchantReference
    ensures dto.ReceiverNumber == NormalizePhoneNumber(req.phoneNumber) && StartsWith(dto.ReceiverNumber, "254")
    ensures dto.Amount == FormatAmount(req.amount)
    ensures dto.Currency == if Truthy(req.currency) then req.currency.value else "KES"
    ensures dto.Channel == if Truthy(req.channel) then req.channel.value else CHANNEL_MPESA
    ensures dto.CallBackURL == if Truthy(req.callbackUrl) then req.callbackUrl.value else m.defaultCallbackUrl
    ensures dto.Reason == if Truthy(req.reason) then req.reason.value else "Disbursement"
  {
    B2CRequestDto(
      MerchantCode := m.merchantCode,
      MerchantTransactionReference := req.merchantReference,
      Currency := Or(req.currency, "KES"),
      Amount := FormatAmount(req.amount),
      ReceiverNumber := NormalizePhoneNumber(req.phoneNumber),
      Channel := Or(req.channel, CHANNEL_MPESA),
      CallBackURL := Or(req.callbackUrl, m.defaultCallbackUrl),
      Reason := Or(req.reason, "Disbursement"))
  }

  /** `mapB2BRequest`: the receiver code, account fields and network code pass
      through untouched (no phone normalisation, no defaults). */
  function MapB2BRequest(m: Mapper, req: B2BPaymentRequest): (dto: B2BRequestDto)
    ensures dto.MerchantCode == m.merchantCode && dto.MerchantTransactionReference == req.merchantReference
    ensures dto.ReceiverMerchantCode == req.receiverMerchantCode
    ensures dto.AccountReference == req.accountReference && dto.ReceiverAccountType == req.receiverAccountType
    ensures dto.NetworkCode == req.networkCode
    ensures dto.Amount == FormatAmount(req.amount)
    ensures dto.Currency == if Truthy(req.currency) then req.currency.value else "KES"
    ensures dto.CallBackURL == if Truthy(req.callbackUrl) then req.callbackUrl.value else m.defaultCallbackUrl
    ensures dto.Reason == if Truthy(req.reason) then req.reason.value else "B2B Transfer"
  {
    B2BRequestDto(
      MerchantCode := m.merchantCode,
      MerchantTransactionReference := req.merchantReference,
      Currency := Or(req.currency, "KES"),
      Amount := FormatAmount(req.amount),
      ReceiverMerchantCode := req.receiverMerchantCode,
      AccountReference := req.accountReference,
      ReceiverAccountType := req.receiverAccountType,
      NetworkCode := req.networkCode,
      CallBackURL := Or(req.callbackUrl, m.defaultCallbackUrl),
      Reason := Or(req.reason, "B2B Transfer"))
  }

  /** `mapBalanceRequest`: the merchant code given, not the configured one. */
  function MapBalanceRequest(merchantCode: string): (dto: BalanceRequestDto)
    ensures dto.MerchantCode == merchantCode
  {
    BalanceRequestDto(merchantCode)
  }

  /** `mapTransactionStatusRequest`: the callback is always the configured one,
      whatever the request says. */
  function MapTransactionStatusRequest(m: Mapper, req: TransactionStatusRequest): (dto: TransactionStatusRequestDto)
    ensures dto.MerchantCode == req.merchantCode && dto.CheckoutRequestID == req.checkoutRequestId
    ensures dto.MerchantTransactionReference == req.merchantRequestId
    ensures dto.CallbackUrl == m.defaultCallbackUrl
  {
    TransactionStatusRequestDto(req.merchantCode, req.checkoutRequestId, req.merchantRequestId, m.defaultCallbackUrl)
  }

  /** An empty optional field counts as missing: the default is used either way. */
  lemma EmptyFieldTakesDefault(m: Mapper, req: C2BPaymentRequest)
    requires req.networkCode == Some("") && req.description == Some("")
    requires req.currency == Some("") && req.callbackUrl == Some("")
    ensures MapC2BRequest(m, req) == MapC2BRequest(m, req.(networkCode := None, description := None,
                                                              currency := None, callbackUrl := None))
  {
  }
}
