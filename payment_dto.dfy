/** The bodies of the three payment initiation requests and the constraints their
    validation decorators impose. Amounts are integers counting minor units
    (hundredths of the currency unit). */
module PaymentDto {
  import opened Wrappers
  import opened JsText
  import RequestMapper

  datatype C2BPaymentDto = C2BPaymentDto(
    phoneNumber: string,
    amount: int,
    merchantReference: string,
    description: Option<string>,
    currency: Option<string>,
    networkCode: Option<string>,
    callbackUrl: Option<string>)

  datatype B2CPaymentDto = B2CPaymentDto(
    phoneNumber: string,
    amount: int,
    merchantReference: string,
    reason: Option<string>,
    currency: Option<string>,
    channel: Option<string>,
    callbackUrl: Option<string>)

  datatype B2BPaymentDto = B2BPaymentDto(
    receiverMerchantCode: string,
    amount: int,
    merchantReference: string,
    reason: Option<string>,
    currency: Option<string>,
    callbackUrl: Option<string>,
    accountReference: Option<string>,
    receiverAccountType: string,
    networkCode: string)

  /** `[17]\d{8}`: a Kenyan mobile subscriber number. */
  predicate SubscriberNumber(s: string) {
    |s| == 9 && (s[0] == '1' || s[0] == '7') && forall i :: 1 <= i < 9 ==> IsDigit(s[i])
  }

  /** `^(\+?254|0)?[17]\d{8}$`: an optional `+254`, `254` or `0` in front of a
      subscriber number, and nothing else. */
  predicate KenyanPhone(p: string) {
    SubscriberNumber(p)
    || (StartsWith(p, "0") && SubscriberNumber(p[1..]))
    || (StartsWith(p, "254") && SubscriberNumber(p[3..]))
    || (StartsWith(p, "+254") && SubscriberNumber(p[4..]))
  }

  /** `@IsOptional() @MaxLength(n)`: absent, or at most n characters. */
  predicate OptionalMaxLength(s: Option<string>, n: nat) {
    s.None? || |s.value| <= n
  }

  /** `@MinLength(1) @MaxLength(50)` on a merchant reference. */
  predicate ValidMerchantReference(r: string) {
    1 <= |r| <= 50
  }

  predicate ValidC2B(d: C2BPaymentDto) {
    d.phoneNumber != "" && KenyanPhone(d.phoneNumber)
    && d.amount > 0
    && ValidMerchantReference(d.merchantReference)
    && OptionalMaxLength(d.description, 200)
  }

  predicate ValidB2C(d: B2CPaymentDto) {
    d.phoneNumber != "" && KenyanPhone(d.phoneNumber)
    && d.amount > 0
    && ValidMerchantReference(d.merchantReference)
    && OptionalMaxLength(d.reason, 200)
  }

  predicate ValidB2B(d: B2BPaymentDto) {
    d.receiverMerchantCode != ""
    && d.amount > 0
    && ValidMerchantReference(d.merchantReference)
    && OptionalMaxLength(d.reason, 200)
    && OptionalMaxLength(d.accountReference, 100)
    && d.receiverAccountType != ""
    && d.networkCode != ""
  }

  /** The pattern fixes the length: 9 digits bare, 10 with `0`, 12 with `254`,
      13 with `+254`. */
  lemma KenyanPhoneLength(p: string)
    requires KenyanPhone(p)
    ensures |p| == 9 || |p| == 10 || |p| == 12 || |p| == 13
  {
  }

  /** A subscriber number is a run of local digits. */
  lemma SubscriberIsLocal(sub: string)
    requires SubscriberNumber(sub)
    ensures RequestMapper.LocalDigits(sub)
  {
    assert forall i :: 0 <= i < |sub| ==> IsDigit(sub[i]);
  }

  /** Which branch of the pattern a number takes decides how it is normalised;
      in every branch the result is `254` and the subscriber part. */
  lemma KenyanPhoneSubscriber(p: string) returns (sub: string)
    requires KenyanPhone(p)
    ensures SubscriberNumber(sub)
    ensures RequestMapper.NormalizePhoneNumber(p) == "254" + sub
  {
    if SubscriberNumber(p) {
      sub := p;
      SubscriberIsLocal(sub);
      RequestMapper.NormalizeBare(sub);
    } else if StartsWith(p, "0") && SubscriberNumber(p[1..]) {
      sub := p[1..];
      assert p == "0" + sub;
      SubscriberIsLocal(sub);
      RequestMapper.NormalizeTrunk(sub);
    } else if StartsWith(p, "254") && SubscriberNumber(p[3..]) {
      sub := p[3..];
      assert p == "254" + sub;
      SubscriberIsLocal(sub);
      RequestMapper.NormalizeInternational(sub);
    } else {
      sub := p[4..];
      assert p == "+254" + sub;
      SubscriberIsLocal(sub);
      RequestMapper.NormalizePlus(sub);
    }
  }

  /** `254` and a subscriber number: twelve digits, itself accepted by the
      pattern and left as it is by the normaliser. */
  lemma InternationalForm(sub: string)
    requires SubscriberNumber(sub)
    ensures var n := "254" + sub;
      |n| == 12 && StartsWith(n, "254") && n[3..] == sub
      && forall i :: 0 <= i < |n| ==> IsDigit(n[i])
    ensures KenyanPhone("254" + sub)
    ensures RequestMapper.NormalizePhoneNumber("254" + sub) == "254" + sub
  {
    var n := "254" + sub;
    assert n[3..] == sub;
    assert forall i :: 0 <= i < |n| ==> n[i] == if i < 3 then "254"[i] else sub[i - 3];
    assert StartsWith(n, "254");
    SubscriberIsLocal(sub);
    RequestMapper.NormalizeInternational(sub);
  }

  /** Any number the pattern accepts normalises to `254` followed by its nine
      subscriber digits. */
  lemma KenyanPhoneNormalizes(p: string)
    requires KenyanPhone(p)
    ensures var n := RequestMapper.NormalizePhoneNumber(p);
      |n| == 12 && StartsWith(n, "254") && SubscriberNumber(n[3..])
      && forall i :: 0 <= i < |n| ==> IsDigit(n[i])
  {
    var sub := KenyanPhoneSubscriber(p);
    InternationalForm(sub);
  }
}
