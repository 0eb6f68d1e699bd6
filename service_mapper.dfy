/** The generated `TransactionMapperImpl` that `TransactionService` uses: an
    entity to `model.TransactionDto` copy of the eighteen shared fields, its
    converse, and the list mapping. Each mapping sends null to null. */
module ServiceMapper {
  import opened Wrappers
  import opened Constraints
  import opened Entity

  /** `model.TransactionDto`: the entity without `id`, `flaggedAt`,
      `flaggedBy` and `updatedAt`. */
  datatype TransactionDto = TransactionDto(
    transactionId: Option<string>,
    amount: Option<int>,
    currency: Option<string>,
    merchantId: Option<string>,
    cardNumberMasked: Option<string>,
    cardType: Option<string>,
    transactionType: Option<string>,
    responseCode: Option<string>,
    isFlagged: Option<bool>,
    flagReason: Option<string>,
    riskScore: Option<int>,
    reviewStatus: Option<string>,
    channel: Option<string>,
    ipAddress: Option<string>,
    deviceId: Option<string>,
    location: Option<string>,
    transactionTime: Option<Timestamp>,
    createdAt: Option<Timestamp>)

  /** Whether `d` carries the eighteen shared fields of `t` unchanged. */
  predicate CopiesSharedFields(t: Transaction, d: TransactionDto) {
    d.transactionId == t.transactionId && d.amount == t.amount && d.currency == t.currency
    && d.merchantId == t.merchantId && d.cardNumberMasked == t.cardNumberMasked
    && d.cardType == t.cardType && d.transactionType == t.transactionType
    && d.responseCode == t.responseCode && d.isFlagged == t.isFlagged
    && d.flagReason == t.flagReason && d.riskScore == t.riskScore
    && d.reviewStatus == t.reviewStatus && d.channel == t.channel
    && d.ipAddress == t.ipAddress && d.deviceId == t.deviceId && d.location == t.location
    && d.transactionTime == t.transactionTime && d.createdAt == t.createdAt
  }

  /** Entity to DTO. */
  function MapTransactionToTransactionDto(t: Option<Transaction>): (r: Option<TransactionDto>)
    ensures r.None? <==> t.None?
    ensures r.Some? ==> CopiesSharedFields(t.value, r.value)
  {
    match t
    case None => None
    case Some(e) =>
      Some(TransactionDto(e.transactionId, e.amount, e.currency, e.merchantId, e.cardNumberMasked,
        e.cardType, e.transactionType, e.responseCode, e.isFlagged, e.flagReason, e.riskScore,
        e.reviewStatus, e.channel, e.ipAddress, e.deviceId, e.location, e.transactionTime, e.createdAt))
  }

  /** DTO to entity through the builder: the fields the DTO lacks stay null. */
  function MapTransactionDtoToTransaction(d: Option<TransactionDto>): (r: Option<Transaction>)
    ensures r.None? <==> d.None?
    ensures r.Some? ==> CopiesSharedFields(r.value, d.value)
    ensures r.Some? ==> r.value.id.None? && r.value.flaggedAt.None? && r.value.flaggedBy.None? && r.value.updatedAt.None?
  {
    match d
    case None => None
    case Some(e) =>
      Some(Transaction(None, e.transactionId, e.amount, e.currency, e.merchantId, e.cardNumberMasked,
        e.cardType, e.transactionType, e.responseCode, e.isFlagged, e.flagReason, None, None,
        e.riskScore, e.reviewStatus, e.channel, e.ipAddress, e.deviceId, e.location,
        e.transactionTime, e.createdAt, None))
  }

  /** DTO to entity to DTO gives the DTO back. */
  lemma DtoRoundTrip(d: Option<TransactionDto>)
    ensures MapTransactionToTransactionDto(MapTransactionDtoToTransaction(d)) == d
  {
  }

  /** Entity to DTO to entity keeps everything but the four fields the DTO
      does not carry, which come back null. */
  lemma EntityRoundTripDropsAuditFields(t: Transaction)
    ensures MapTransactionDtoToTransaction(MapTransactionToTransactionDto(Some(t)))
      == Some(t.(id := None, flaggedAt := None, flaggedBy := None, updatedAt := None))
  {
  }

  /** The list mapping: null to null, and otherwise one DTO per entity, in
      order, a null entity giving a null DTO. */
  method ToTransactionDtoList(transactionList: Option<seq<Option<Transaction>>>)
    returns (r: Option<seq<Option<TransactionDto>>>)
    ensures r.None? <==> transactionList.None?
    ensures r.Some? ==> |r.value| == |transactionList.value|
    ensures r.Some? ==> forall i :: 0 <= i < |r.value| ==>
      r.value[i] == MapTransactionToTransactionDto(transactionList.value[i])
  {
    if transactionList.None? {
      return None;
    }
    var entities := transactionList.value;
    var list: seq<Option<TransactionDto>> := [];
    for k := 0 to |entities|
      invariant |list| == k
      invariant forall i :: 0 <= i < k ==> list[i] == MapTransactionToTransactionDto(entities[i])
    {
      list := list + [MapTransactionToTransactionDto(entities[k])];
    }
    return Some(list);
  }
}
