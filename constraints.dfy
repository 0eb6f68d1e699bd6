/** The Bean Validation constraints used on the transaction request payloads,
    each as the set of violations it reports for one field. A violation is the
    field's property path with the constraint's message. As in Bean Validation,
    a null value satisfies every constraint except @NotNull and @NotBlank. */
module Constraints {
  import opened Wrappers
  import opened JavaText
  import opened Ipv4Pattern

  /** Dates and times (`LocalDateTime`) as points on one ordered time line. */
  type Timestamp = int

  /** The constrained properties of the request payloads. */
  datatype Field =
    | Amount | Currency | MerchantId | CardNumberMasked | TransactionType
    | RiskScore | IpAddress | TransactionTime | IdempotencyKey | FlagReason | Comment
  {
    /** The property path a violation of this field reports. */
    function Path(): string {
      match this
      case Amount => "amount"
      case Currency => "currency"
      case MerchantId => "merchantId"
      case CardNumberMasked => "cardNumberMasked"
      case TransactionType => "transactionType"
      case RiskScore => "riskScore"
      case IpAddress => "ipAddress"
      case TransactionTime => "transactionTime"
      case IdempotencyKey => "idempotencyKey"
      case FlagReason => "flagReason"
      case Comment => "comment"
    }
  }

  /** The messages the constraints carry. */
  datatype Message =
    | AmountRequired | AmountNotPositive | CurrencyRequired | CurrencyTooLong
    | MerchantIdRequired | CardNumberTooLong | TransactionTypeRequired
    | RiskScoreNegative | RiskScoreTooHigh | InvalidIpAddress | TimeInFuture
    | IdempotencyKeyTooLong | FlagReasonTooLong | CommentRequired
  {
    /** The text the constraint annotation declares. */
    function Text(): string {
      match this
      case AmountRequired => "Amount is required"
      case AmountNotPositive => "Amount must be positive"
      case CurrencyRequired => "Currency is required"
      case CurrencyTooLong => "Currency must be a valid 3-letter ISO code"
      case MerchantIdRequired => "Merchant ID is required"
      case CardNumberTooLong => "Card number masked value too long"
      case TransactionTypeRequired => "Transaction type is required"
      case RiskScoreNegative => "Risk score cannot be negative"
      case RiskScoreTooHigh => "Risk score cannot exceed 100"
      case InvalidIpAddress => "Invalid IP address format"
      case TimeInFuture => "transactionTime cannot be in the future"
      case IdempotencyKeyTooLong => "Idempotency key too long"
      case FlagReasonTooLong => "Flag reason too long"
      case CommentRequired => "Comment is required to flag a transaction."
    }
  }

  /** A violation: the constrained field and the constraint's message. */
  datatype Violation = Violation(field: Field, message: Message)

  /** @NotNull. */
  predicate NotNull<T>(v: Option<T>) {
    v.Some?
  }

  /** @Positive: null, or greater than zero. */
  predicate Positive(v: Option<int>) {
    v.None? || v.value > 0
  }

  /** @NotBlank as Hibernate Validator implements it: not null, and
      `trim().length() > 0`. */
  predicate NotBlank(v: Option<string>) {
    v.Some? && !IsTrimBlank(v.value)
  }

  /** @Size(max = n): null, or at most n characters. */
  predicate SizeAtMost(v: Option<string>, n: nat) {
    v.None? || |v.value| <= n
  }

  /** @Min(n): null, or at least n. */
  predicate AtLeast(v: Option<int>, n: int) {
    v.None? || v.value >= n
  }

  /** @Max(n): null, or at most n. */
  predicate AtMost(v: Option<int>, n: int) {
    v.None? || v.value <= n
  }

  /** @PastOrPresent, read against the clock value `now`. */
  predicate PastOrPresent(t: Option<Timestamp>, now: Timestamp) {
    t.None? || t.value <= now
  }

  /** @Pattern with the IPv4 expression on `ipAddress`. */
  predicate IpPattern(ip: Option<string>) {
    ip.None? || MatchesIpPattern(ip.value)
  }

  /** @NotBlank holds exactly when the value is present and trimming it
      leaves something. */
  lemma NotBlankIffTrimmedNonEmpty(v: Option<string>)
    ensures NotBlank(v) <==> v.Some? && Trim(v.value) != []
  {
    if v.Some? {
      TrimEmptyIffTrimBlank(v.value);
    }
  }

  /** The @Pattern on `ipAddress` accepts null, the empty string, and the
      dotted quads of octets 0..255 without leading zeros, and nothing else. */
  lemma IpPatternIffEmptyOrDottedQuad(ip: Option<string>)
    ensures IpPattern(ip) <==> ip.None? || ip.value == [] || IsDottedQuadAddress(ip.value)
  {
    if ip.Some? {
      IpPatternIffDottedQuad(ip.value);
    }
  }
}
