/** `UpdateTransactionRequest`: the payload of a full update, and the
    violations its field constraints report. `isFlagged`, `cardType`,
    `responseCode`, `reviewStatus`, `channel`, `deviceId` and `location`
    carry no constraint. */
module UpdateRequest {
  import opened Wrappers
  import opened JavaText
  import opened Ipv4Pattern
  import opened Constraints

  datatype UpdateTransactionRequest = UpdateTransactionRequest(
    amount: Option<int>,
    currency: Option<string>,
    merchantId: Option<string>,
    cardNumberMasked: Option<string>,
    cardType: Option<string>,
    transactionType: Option<string>,
    responseCode: Option<string>,
    isFlagged: Option<bool>,
    flagReason: Option<string>,
    riskScore: Option<int>,
    reviewStatus: Option<string>,
    channel: Option<string>,
    ipAddress: Option<string>,
    deviceId: Option<string>,
    location: Option<string>,
    transactionTime: Option<Timestamp>)

  /** Every violation an update request can report. */
  const UpdateViolations: set<Violation> := {
    Violation(Amount, AmountRequired), Violation(Amount, AmountNotPositive),
    Violation(Currency, CurrencyRequired), Violation(Currency, CurrencyTooLong),
    Violation(MerchantId, MerchantIdRequired),
    Violation(CardNumberMasked, CardNumberTooLong),
    Violation(TransactionType, TransactionTypeRequired),
    Violation(FlagReason, FlagReasonTooLong),
    Violation(RiskScore, RiskScoreNegative), Violation(RiskScore, RiskScoreTooHigh),
    Violation(IpAddress, InvalidIpAddress),
    Violation(TransactionTime, TimeInFuture)}

  /** Whether the constraint behind `v` fails on `req` with the clock at `now`. */
  predicate Violated(req: UpdateTransactionRequest, now: Timestamp, v: Violation) {
    match v
    case Violation(Amount, AmountRequired) => !NotNull(req.amount)
    case Violation(Amount, AmountNotPositive) => !Positive(req.amount)
    case Violation(Currency, CurrencyRequired) => !NotBlank(req.currency)
    case Violation(Currency, CurrencyTooLong) => !SizeAtMost(req.currency, 3)
    case Violation(MerchantId, MerchantIdRequired) => !NotBlank(req.merchantId)
    case Violation(CardNumberMasked, CardNumberTooLong) => !SizeAtMost(req.cardNumberMasked, 32)
    case Violation(TransactionType, TransactionTypeRequired) => !NotBlank(req.transactionType)
    case Violation(FlagReason, FlagReasonTooLong) => !SizeAtMost(req.flagReason, 512)
    case Violation(RiskScore, RiskScoreNegative) => !AtLeast(req.riskScore, 0)
    case Violation(RiskScore, RiskScoreTooHigh) => !AtMost(req.riskScore, 100)
    case Violation(IpAddress, InvalidIpAddress) => !IpPattern(req.ipAddress)
    case Violation(TransactionTime, TimeInFuture) => !PastOrPresent(req.transactionTime, now)
    case _ => false
  }

  /** The constraint violations of `req` with the clock at `now`: every
      declared constraint that fails. */
  function Validate(req: UpdateTransactionRequest, now: Timestamp): (r: set<Violation>)
    ensures r <= UpdateViolations
  {
    set v | v in UpdateViolations && Violated(req, now, v)
  }

  /** The @NotNull and @Positive constraints on `amount`. */
  lemma AmountConstraintsReported(req: UpdateTransactionRequest, now: Timestamp)
    ensures Violation(Amount, AmountRequired) in Validate(req, now) <==> req.amount.None?
    ensures Violation(Amount, AmountNotPositive) in Validate(req, now) <==> req.amount.Some? && req.amount.value <= 0
  {
  }

  /** The @NotBlank and @Size(max = 3) constraints on `currency`. */
  lemma CurrencyConstraintsReported(req: UpdateTransactionRequest, now: Timestamp)
    ensures Violation(Currency, CurrencyRequired) in Validate(req, now) <==> req.currency.None? || Trim(req.currency.value) == []
    ensures Violation(Currency, CurrencyTooLong) in Validate(req, now) <==> req.currency.Some? && |req.currency.value| > 3
  {
    NotBlankIffTrimmedNonEmpty(req.currency);
  }

  /** The @NotBlank constraints on `merchantId` and `transactionType`. */
  lemma RequiredTextReported(req: UpdateTransactionRequest, now: Timestamp)
    ensures Violation(MerchantId, MerchantIdRequired) in Validate(req, now) <==> req.merchantId.None? || Trim(req.merchantId.value) == []
    ensures Violation(TransactionType, TransactionTypeRequired) in Validate(req, now) <==> req.transactionType.None? || Trim(req.transactionType.value) == []
  {
    NotBlankIffTrimmedNonEmpty(req.merchantId);
    NotBlankIffTrimmedNonEmpty(req.transactionType);
  }

  /** The @Size limits on `cardNumberMasked` (32) and `flagReason` (512). */
  lemma LengthLimitsReported(req: UpdateTransactionRequest, now: Timestamp)
    ensures Violation(CardNumberMasked, CardNumberTooLong) in Validate(req, now) <==> req.cardNumberMasked.Some? && |req.cardNumberMasked.value| > 32
    ensures Violation(FlagReason, FlagReasonTooLong) in Validate(req, now) <==> req.flagReason.Some? && |req.flagReason.value| > 512
  {
  }

  /** The @Min(0) and @Max(100) constraints on `riskScore`. */
  lemma RiskScoreConstraintsReported(req: UpdateTransactionRequest, now: Timestamp)
    ensures Violation(RiskScore, RiskScoreNegative) in Validate(req, now) <==> req.riskScore.Some? && req.riskScore.value < 0
    ensures Violation(RiskScore, RiskScoreTooHigh) in Validate(req, now) <==> req.riskScore.Some? && req.riskScore.value > 100
  {
  }

  /** The @Pattern constraint on `ipAddress` and the @PastOrPresent
      constraint on `transactionTime`. */
  lemma AddressAndTimeReported(req: UpdateTransactionRequest, now: Timestamp)
    ensures Violation(IpAddress, InvalidIpAddress) in Validate(req, now) <==> req.ipAddress.Some? && req.ipAddress.value != [] && !IsDottedQuadAddress(req.ipAddress.value)
    ensures Violation(TransactionTime, TimeInFuture) in Validate(req, now) <==> req.transactionTime.Some? && req.transactionTime.value > now
  {
    IpPatternIffEmptyOrDottedQuad(req.ipAddress);
  }

  /** The unconstrained fields never affect validation. */
  lemma UnconstrainedFieldsIgnored(req: UpdateTransactionRequest, other: UpdateTransactionRequest, now: Timestamp)
    requires other.amount == req.amount && other.currency == req.currency
    requires other.merchantId == req.merchantId && other.cardNumberMasked == req.cardNumberMasked
    requires other.transactionType == req.transactionType && other.flagReason == req.flagReason
    requires other.riskScore == req.riskScore && other.ipAddress == req.ipAddress
    requires other.transactionTime == req.transactionTime
    ensures Validate(other, now) == Validate(req, now)
  {
    assert forall v :: Violated(other, now, v) == Violated(req, now, v);
  }

  /** A request is valid exactly when every declared constraint holds; the
      unconstrained fields may hold anything. */
  lemma ValidIffAllConstraintsHold(req: UpdateTransactionRequest, now: Timestamp)
    ensures Validate(req, now) == {} <==>
      req.amount.Some? && req.amount.value > 0
      && req.currency.Some? && Trim(req.currency.value) != [] && |req.currency.value| <= 3
      && req.merchantId.Some? && Trim(req.merchantId.value) != []
      && SizeAtMost(req.cardNumberMasked, 32)
      && req.transactionType.Some? && Trim(req.transactionType.value) != []
      && SizeAtMost(req.flagReason, 512)
      && AtLeast(req.riskScore, 0) && AtMost(req.riskScore, 100)
      && (req.ipAddress.None? || req.ipAddress.value == [] || IsDottedQuadAddress(req.ipAddress.value))
      && PastOrPresent(req.transactionTime, now)
  {
    AmountConstraintsReported(req, now);
    CurrencyConstraintsReported(req, now);
    RequiredTextReported(req, now);
    LengthLimitsReported(req, now);
    RiskScoreConstraintsReported(req, now);
    AddressAndTimeReported(req, now);
  }
}
