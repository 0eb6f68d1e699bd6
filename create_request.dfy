/** `CreateTransactionRequest`: the payload for creating a transaction, and the
    violations its field constraints report. */
module CreateRequest {
  import opened Wrappers
  import opened JavaText
  import opened Ipv4Pattern
  import opened Constraints

  datatype CreateTransactionRequest = CreateTransactionRequest(
    amount: Option<int>,
    currency: Option<string>,
    merchantId: Option<string>,
    cardNumberMasked: Option<string>,
    cardType: Option<string>,
    transactionType: Option<string>,
    responseCode: Option<string>,
    riskScore: Option<int>,
    channel: Option<string>,
    ipAddress: Option<string>,
    deviceId: Option<string>,
    location: Option<string>,
    transactionTime: Option<Timestamp>,
    idempotencyKey: Option<string>)

  /** Every violation a create request can report. */
  const CreateViolations: set<Violation> := {
    Violation(Amount, AmountRequired), Violation(Amount, AmountNotPositive),
    Violation(Currency, CurrencyRequired), Violation(Currency, CurrencyTooLong),
    Violation(MerchantId, MerchantIdRequired),
    Violation(CardNumberMasked, CardNumberTooLong),
    Violation(TransactionType, TransactionTypeRequired),
    Violation(RiskScore, RiskScoreNegative), Violation(RiskScore, RiskScoreTooHigh),
    Violation(IpAddress, InvalidIpAddress),
    Violation(TransactionTime, TimeInFuture),
    Violation(IdempotencyKey, IdempotencyKeyTooLong)}

  /** Whether the constraint behind `v` fails on `req` with the clock at `now`. */
  predicate Violated(req: CreateTransactionRequest, now: Timestamp, v: Violation) {
    match v
    case Violation(Amount, AmountRequired) => !NotNull(req.amount)
    case Violation(Amount, AmountNotPositive) => !Positive(req.amount)
    case Violation(Currency, CurrencyRequired) => !NotBlank(req.currency)
    case Violation(Currency, CurrencyTooLong) => !SizeAtMost(req.currency, 3)
    case Violation(MerchantId, MerchantIdRequired) => !NotBlank(req.merchantId)
    case Violation(CardNumberMasked, CardNumberTooLong) => !SizeAtMost(req.cardNumberMasked, 32)
    case Violation(TransactionType, TransactionTypeRequired) => !NotBlank(req.transactionType)
    case Violation(RiskScore, RiskScoreNegative) => !AtLeast(req.riskScore, 0)
    case Violation(RiskScore, RiskScoreTooHigh) => !AtMost(req.riskScore, 100)
    case Violation(IpAddress, InvalidIpAddress) => !IpPattern(req.ipAddress)
    case Violation(TransactionTime, TimeInFuture) => !PastOrPresent(req.transactionTime, now)
    case Violation(IdempotencyKey, IdempotencyKeyTooLong) => !SizeAtMost(req.idempotencyKey, 128)
    case _ => false
  }

  /** The constraint violations of `req` with the clock at `now`: every
      declared constraint that fails. */
  function Validate(req: CreateTransactionRequest, now: Timestamp): (r: set<Violation>)
    ensures r <= CreateViolations
  {
    set v | v in CreateViolations && Violated(req, now, v)
  }

  /** The @NotNull and @Positive constraints on `amount`. */
  lemma AmountConstraintsReported(req: CreateTransactionRequest, now: Timestamp)
    ensures Violation(Amount, AmountRequired) in Validate(req, now) <==> req.amount.None?
    ensures Violation(Amount, AmountNotPositive) in Validate(req, now) <==> req.amount.Some? && req.amount.value <= 0
  {
  }

  /** The @NotBlank and @Size(max = 3) constraints on `currency`. */
  lemma CurrencyConstraintsReported(req: CreateTransactionRequest, now: Timestamp)
    ensures Violation(Currency, CurrencyRequired) in Validate(req, now) <==> req.currency.None? || Trim(req.currency.value) == []
    ensures Violation(Currency, CurrencyTooLong) in Validate(req, now) <==> req.currency.Some? && |req.currency.value| > 3
  {
    NotBlankIffTrimmedNonEmpty(req.currency);
  }

  /** The @NotBlank constraints on `merchantId` and `transactionType`. */
  lemma RequiredTextReported(req: CreateTransactionRequest, now: Timestamp)
    ensures Violation(MerchantId, MerchantIdRequired) in Validate(req, now) <==> req.merchantId.None? || Trim(req.merchantId.value) == []
    ensures Violation(TransactionType, TransactionTypeRequired) in Validate(req, now) <==> req.transactionType.None? || Trim(req.transactionType.value) == []
  {
    NotBlankIffTrimmedNonEmpty(req.merchantId);
    NotBlankIffTrimmedNonEmpty(req.transactionType);
  }

  /** The @Size limits on `cardNumberMasked` (32) and `idempotencyKey` (128). */
  lemma LengthLimitsReported(req: CreateTransactionRequest, now: Timestamp)
    ensures Violation(CardNumberMasked, CardNumberTooLong) in Validate(req, now) <==> req.cardNumberMasked.Some? && |req.cardNumberMasked.value| > 32
    ensures Violation(IdempotencyKey, IdempotencyKeyTooLong) in Validate(req, now) <==> req.idempotencyKey.Some? && |req.idempotencyKey.value| > 128
  {
  }

  /** The @Min(0) and @Max(100) constraints on `riskScore`. */
  lemma RiskScoreConstraintsReported(req: CreateTransactionRequest, now: Timestamp)
    ensures Violation(RiskScore, RiskScoreNegative) in Validate(req, now) <==> req.riskScore.Some? && req.riskScore.value < 0
    ensures Violation(RiskScore, RiskScoreTooHigh) in Validate(req, now) <==> req.riskScore.Some? && req.riskScore.value > 100
  {
  }

  /** The @Pattern constraint on `ipAddress` and the @PastOrPresent
      constraint on `transactionTime`. */
  lemma AddressAndTimeReported(req: CreateTransactionRequest, now: Timestamp)
    ensures Violation(IpAddress, InvalidIpAddress) in Validate(req, now) <==> req.ipAddress.Some? && req.ipAddress.value != [] && !IsDottedQuadAddress(req.ipAddress.value)
    ensures Violation(TransactionTime, TimeInFuture) in Validate(req, now) <==> req.transactionTime.Some? && req.transactionTime.value > now
  {
    IpPatternIffEmptyOrDottedQuad(req.ipAddress);
  }

  /** A request is valid exactly when every declared constraint holds. */
  lemma ValidIffAllConstraintsHold(req: CreateTransactionRequest, now: Timestamp)
    ensures Validate(req, now) == {} <==>
      req.amount.Some? && req.amount.value > 0
      && req.currency.Some? && Trim(req.currency.value) != [] && |req.currency.value| <= 3
      && req.merchantId.Some? && Trim(req.merchantId.value) != []
      && SizeAtMost(req.cardNumberMasked, 32)
      && req.transactionType.Some? && Trim(req.transactionType.value) != []
      && AtLeast(req.riskScore, 0) && AtMost(req.riskScore, 100)
      && (req.ipAddress.None? || req.ipAddress.value == [] || IsDottedQuadAddress(req.ipAddress.value))
      && PastOrPresent(req.transactionTime, now)
      && SizeAtMost(req.idempotencyKey, 128)
  {
    AmountConstraintsReported(req, now);
    CurrencyConstraintsReported(req, now);
    RequiredTextReported(req, now);
    LengthLimitsReported(req, now);
    RiskScoreConstraintsReported(req, now);
    AddressAndTimeReported(req, now);
  }

  /** A request with only its required fields and a negative amount reports
      exactly one violation, "Amount must be positive". */
  lemma NegativeAmountIsTheOnlyViolation(req: CreateTransactionRequest, now: Timestamp)
    requires req == CreateTransactionRequest(Some(-10), Some("USD"), Some("MAR101"), None, None,
      Some("PURCHASE"), None, None, None, None, None, None, None, None)
    ensures Validate(req, now) == {Violation(Amount, AmountNotPositive)}
  {
    assert NotBlank(req.currency) by { assert !IsTrimmable(req.currency.value[0]); }
    assert NotBlank(req.merchantId) by { assert !IsTrimmable(req.merchantId.value[0]); }
    assert NotBlank(req.transactionType) by { assert !IsTrimmable(req.transactionType.value[0]); }
    var r := Validate(req, now);
    forall v | v in r ensures v == Violation(Amount, AmountNotPositive) {
      assert v in CreateViolations;
    }
  }
}
