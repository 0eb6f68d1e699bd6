/** The MapStruct mapper of the `mapper` package: entity to response DTO,
    create request to a new entity, and the null-ignoring in-place update of
    an entity from an update request. MapStruct copies each property whose
    name the source and the target share, except those marked ignored. */
module TransactionMapper {
  import opened Wrappers
  import opened Constraints
  import opened Entity
  import opened CreateRequest
  import opened UpdateRequest

  /** `dto.TransactionDto`: the response view of an entity, every column but `id`. */
  datatype TransactionDto = TransactionDto(
    transactionId: Option<string>,
    amount: Option<int>,
    currency: Option<string>,
    merchantId: Option<string>,
    cardNumberMasked: Option<string>,
    cardType: Option<string>,
    transactionType: Option<string>,
    responseCode: Option<string>,
    isFlagged: Option<bool>,
    flagReason: Option<string>,
    riskScore: Option<int>,
    reviewStatus: Option<string>,
    channel: Option<string>,
    ipAddress: Option<string>,
    deviceId: Option<string>,
    location: Option<string>,
    transactionTime: Option<Timestamp>,
    createdAt: Option<Timestamp>,
    updatedAt: Option<Timestamp>,
    flaggedAt: Option<Timestamp>,
    flaggedBy: Option<string>)

  /** Whether `d` holds each of `t`'s fields other than `id` under the
      field of the same name. */
  predicate CarriesEntity(t: Transaction, d: TransactionDto) {
    && d.transactionId == t.transactionId && d.amount == t.amount && d.currency == t.currency
    && d.merchantId == t.merchantId && d.cardNumberMasked == t.cardNumberMasked
    && d.cardType == t.cardType && d.transactionType == t.transactionType
    && d.responseCode == t.responseCode && d.isFlagged == t.isFlagged
    && d.flagReason == t.flagReason && d.riskScore == t.riskScore
    && d.reviewStatus == t.reviewStatus && d.channel == t.channel
    && d.ipAddress == t.ipAddress && d.deviceId == t.deviceId && d.location == t.location
    && d.transactionTime == t.transactionTime && d.createdAt == t.createdAt
    && d.updatedAt == t.updatedAt && d.flaggedAt == t.flaggedAt && d.flaggedBy == t.flaggedBy
  }

  /** Entity to response DTO: null to null, otherwise every field but `id`. */
  function ToDto(t: Option<Transaction>): (r: Option<TransactionDto>)
    ensures r.None? <==> t.None?
    ensures r.Some? ==> CarriesEntity(t.value, r.value)
  {
    match t
    case None => None
    case Some(e) =>
      Some(TransactionDto(e.transactionId, e.amount, e.currency, e.merchantId, e.cardNumberMasked,
        e.cardType, e.transactionType, e.responseCode, e.isFlagged, e.flagReason, e.riskScore,
        e.reviewStatus, e.channel, e.ipAddress, e.deviceId, e.location, e.transactionTime,
        e.createdAt, e.updatedAt, e.flaggedAt, e.flaggedBy))
  }

  /** The response DTO loses nothing but `id`: two entities with the same
      DTO differ at most in `id`. */
  lemma ToDtoForgetsOnlyId(a: Transaction, b: Transaction)
    ensures ToDto(Some(a)) == ToDto(Some(b)) <==> a.(id := None) == b.(id := None)
  {
  }

  /** One DTO per entity, in order. */
  function MapEach(entities: seq<Option<Transaction>>): (r: seq<Option<TransactionDto>>)
    ensures |r| == |entities|
    ensures forall i :: 0 <= i < |r| ==> r[i] == ToDto(entities[i])
  {
    if entities == [] then [] else [ToDto(entities[0])] + MapEach(entities[1..])
  }

  /** The list mapping: null to null, otherwise element i is `ToDto` of element i. */
  function ToDtoList(entities: Option<seq<Option<Transaction>>>): (r: Option<seq<Option<TransactionDto>>>)
    ensures r.None? <==> entities.None?
    ensures r.Some? ==> |r.value| == |entities.value|
    ensures r.Some? ==> forall i :: 0 <= i < |r.value| ==> r.value[i] == ToDto(entities.value[i])
  {
    match entities
    case None => None
    case Some(s) => Some(MapEach(s))
  }

  /** A new entity from a create request. `id`, `transactionId`, `createdAt`,
      `updatedAt`, `flaggedAt`, `flaggedBy` and `isFlagged` are ignored, so
      they stay null; `flagReason` and `reviewStatus` have no source property
      and stay null; `idempotencyKey` has no target and is dropped. */
  function FromCreateRequest(request: Option<CreateTransactionRequest>): (r: Option<Transaction>)
    ensures r.None? <==> request.None?
    ensures r.Some? ==> (r.value.id.None? && r.value.transactionId.None? && r.value.createdAt.None?
      && r.value.updatedAt.None? && r.value.flaggedAt.None? && r.value.flaggedBy.None?
      && r.value.isFlagged.None?)
    ensures r.Some? ==> r.value.flagReason.None? && r.value.reviewStatus.None?
    ensures r.Some? ==> CopiesRequestFields(request.value, r.value)
  {
    match request
    case None => None
    case Some(q) =>
      Some(Blank.(amount := q.amount, currency := q.currency, merchantId := q.merchantId,
        cardNumberMasked := q.cardNumberMasked, cardType := q.cardType,
        transactionType := q.transactionType, responseCode := q.responseCode,
        riskScore := q.riskScore, channel := q.channel, ipAddress := q.ipAddress,
        deviceId := q.deviceId, location := q.location, transactionTime := q.transactionTime))
  }

  /** Whether `t` holds each of the thirteen request fields that have an
      entity field of the same name. */
  predicate CopiesRequestFields(q: CreateTransactionRequest, t: Transaction) {
    && t.amount == q.amount && t.currency == q.currency && t.merchantId == q.merchantId
    && t.cardNumberMasked == q.cardNumberMasked && t.cardType == q.cardType
    && t.transactionType == q.transactionType && t.responseCode == q.responseCode
    && t.riskScore == q.riskScore && t.channel == q.channel && t.ipAddress == q.ipAddress
    && t.deviceId == q.deviceId && t.location == q.location && t.transactionTime == q.transactionTime
  }

  /** Two create requests give the same entity exactly when they agree on
      the thirteen copied fields: nothing else of the request reaches it. */
  lemma FromCreateRequestIffSameCopiedFields(a: CreateTransactionRequest, b: CreateTransactionRequest)
    ensures FromCreateRequest(Some(a)) == FromCreateRequest(Some(b))
      <==> CopiesRequestFields(a, FromCreateRequest(Some(b)).value)
  {
  }

  /** The idempotency key never reaches the entity. */
  lemma FromCreateRequestIgnoresIdempotencyKey(q: CreateTransactionRequest, key: Option<string>)
    ensures FromCreateRequest(Some(q.(idempotencyKey := key))) == FromCreateRequest(Some(q))
  {
  }

  /** `patch` when the request supplies it, else the entity's `current` value. */
  function Overwrite<T>(patch: Option<T>, current: Option<T>): (r: Option<T>)
    ensures patch.Some? ==> r == patch
    ensures patch.None? ==> r == current
  {
    if patch.Some? then patch else current
  }

  /** The entity `t` after the in-place update from `request`: each of the
      sixteen request properties that is non-null overwrites the entity's
      field; null properties, a null request and the ignored fields `id`,
      `transactionId`, `createdAt`, `updatedAt`, `flaggedAt` and `flaggedBy`
      leave the entity as it was. */
  function Patched(t: Transaction, request: Option<UpdateTransactionRequest>): Transaction {
    match request
    case None => t
    case Some(q) =>
      t.(amount := Overwrite(q.amount, t.amount), currency := Overwrite(q.currency, t.currency),
        merchantId := Overwrite(q.merchantId, t.merchantId),
        cardNumberMasked := Overwrite(q.cardNumberMasked, t.cardNumberMasked),
        cardType := Overwrite(q.cardType, t.cardType),
        transactionType := Overwrite(q.transactionType, t.transactionType),
        responseCode := Overwrite(q.responseCode, t.responseCode),
        isFlagged := Overwrite(q.isFlagged, t.isFlagged), flagReason := Overwrite(q.flagReason, t.flagReason),
        riskScore := Overwrite(q.riskScore, t.riskScore), reviewStatus := Overwrite(q.reviewStatus, t.reviewStatus),
        channel := Overwrite(q.channel, t.channel), ipAddress := Overwrite(q.ipAddress, t.ipAddress),
        deviceId := Overwrite(q.deviceId, t.deviceId), location := Overwrite(q.location, t.location),
        transactionTime := Overwrite(q.transactionTime, t.transactionTime))
  }

  /** The sixteen updatable fields of an entity, as an update request. */
  function UpdatableFields(t: Transaction): (r: UpdateTransactionRequest)
    ensures r.amount == t.amount && r.isFlagged == t.isFlagged && r.transactionTime == t.transactionTime
  {
    UpdateTransactionRequest(t.amount, t.currency, t.merchantId, t.cardNumberMasked, t.cardType,
      t.transactionType, t.responseCode, t.isFlagged, t.flagReason, t.riskScore, t.reviewStatus,
      t.channel, t.ipAddress, t.deviceId, t.location, t.transactionTime)
  }

  /** The audit and identity fields, which the update never writes. */
  function AuditFields(t: Transaction): (Option<int>, Option<string>, Option<Timestamp>, Option<Timestamp>, Option<Timestamp>, Option<string>) {
    (t.id, t.transactionId, t.createdAt, t.updatedAt, t.flaggedAt, t.flaggedBy)
  }

  /** The request with no property set. */
  const EmptyUpdate := UpdateTransactionRequest(None, None, None, None, None, None, None, None,
                                                None, None, None, None, None, None, None, None)

  /** Whether every property of `q` is set. */
  predicate FullyPopulated(q: UpdateTransactionRequest) {
    q.amount.Some? && q.currency.Some? && q.merchantId.Some? && q.cardNumberMasked.Some?
    && q.cardType.Some? && q.transactionType.Some? && q.responseCode.Some? && q.isFlagged.Some?
    && q.flagReason.Some? && q.riskScore.Some? && q.reviewStatus.Some? && q.channel.Some?
    && q.ipAddress.Some? && q.deviceId.Some? && q.location.Some? && q.transactionTime.Some?
  }

  /** The update never touches `id`, `transactionId`, `createdAt`,
      `updatedAt`, `flaggedAt` or `flaggedBy`. */
  lemma PatchKeepsAuditFields(t: Transaction, request: Option<UpdateTransactionRequest>)
    ensures AuditFields(Patched(t, request)) == AuditFields(t)
  {
  }

  /** A null request, or one whose properties are all null, changes nothing. */
  lemma NullPropertiesChangeNothing(t: Transaction)
    ensures Patched(t, None) == t
    ensures Patched(t, Some(EmptyUpdate)) == t
  {
  }

  /** A fully populated request overwrites every updatable field. */
  lemma FullRequestOverwritesAll(t: Transaction, q: UpdateTransactionRequest)
    requires FullyPopulated(q)
    ensures UpdatableFields(Patched(t, Some(q))) == q
  {
  }

  /** The properties of `later` where set, else those of `earlier`. */
  function Overlay(later: UpdateTransactionRequest, earlier: UpdateTransactionRequest): (r: UpdateTransactionRequest)
    ensures FullyPopulated(earlier) ==> FullyPopulated(r)
  {
    UpdateTransactionRequest(Overwrite(later.amount, earlier.amount), Overwrite(later.currency, earlier.currency),
      Overwrite(later.merchantId, earlier.merchantId), Overwrite(later.cardNumberMasked, earlier.cardNumberMasked),
      Overwrite(later.cardType, earlier.cardType), Overwrite(later.transactionType, earlier.transactionType),
      Overwrite(later.responseCode, earlier.responseCode), Overwrite(later.isFlagged, earlier.isFlagged),
      Overwrite(later.flagReason, earlier.flagReason), Overwrite(later.riskScore, earlier.riskScore),
      Overwrite(later.reviewStatus, earlier.reviewStatus), Overwrite(later.channel, earlier.channel),
      Overwrite(later.ipAddress, earlier.ipAddress), Overwrite(later.deviceId, earlier.deviceId),
      Overwrite(later.location, earlier.location), Overwrite(later.transactionTime, earlier.transactionTime))
  }

  /** Two updates in a row act as one update with the later request laid
      over the earlier one. */
  lemma PatchesCompose(t: Transaction, earlier: UpdateTransactionRequest, later: UpdateTransactionRequest)
    ensures Patched(Patched(t, Some(earlier)), Some(later)) == Patched(t, Some(Overlay(later, earlier)))
  {
  }

  /** Applying the same update twice gives the entity of applying it once. */
  lemma PatchIdempotent(t: Transaction, request: Option<UpdateTransactionRequest>)
    ensures Patched(Patched(t, request), request) == Patched(t, request)
  {
    if request.Some? {
      PatchesCompose(t, request.value, request.value);
      assert Overlay(request.value, request.value) == request.value;
    }
  }

  /** The in-place update of `entity` from `request`. */
  method UpdateFromUpdateRequest(request: Option<UpdateTransactionRequest>, entity: TransactionEntity)
    modifies entity
    ensures entity.Snapshot() == Patched(old(entity.Snapshot()), request)
  {
    if request.None? {
      return;
    }
    var q := request.value;
    PatchPaymentFields(q, entity);
    PatchProcessingFields(q, entity);
    PatchReviewFields(q, entity);
    PatchOriginFields(q, entity);
  }

  /** The update's null-checked setters for `amount`, `currency`, `merchantId` and `cardNumberMasked`:
      each non-null property overwrites its field. */
  method PatchPaymentFields(q: UpdateTransactionRequest, entity: TransactionEntity)
    modifies entity
    ensures entity.Snapshot() == old(entity.Snapshot()).(
      amount := Overwrite(q.amount, old(entity.amount)),
      currency := Overwrite(q.currency, old(entity.currency)),
      merchantId := Overwrite(q.merchantId, old(entity.merchantId)),
      cardNumberMasked := Overwrite(q.cardNumberMasked, old(entity.cardNumberMasked)))
  {
    entity.amount := Overwrite(q.amount, entity.amount);
    entity.currency := Overwrite(q.currency, entity.currency);
    entity.merchantId := Overwrite(q.merchantId, entity.merchantId);
    entity.cardNumberMasked := Overwrite(q.cardNumberMasked, entity.cardNumberMasked);
  }

  /** The update's null-checked setters for `cardType`, `transactionType`, `responseCode` and `isFlagged`:
      each non-null property overwrites its field. */
  method PatchProcessingFields(q: UpdateTransactionRequest, entity: TransactionEntity)
    modifies entity
    ensures entity.Snapshot() == old(entity.Snapshot()).(
      cardType := Overwrite(q.cardType, old(entity.cardType)),
      transactionType := Overwrite(q.transactionType, old(entity.transactionType)),
      responseCode := Overwrite(q.responseCode, old(entity.responseCode)),
      isFlagged := Overwrite(q.isFlagged, old(entity.isFlagged)))
  {
    entity.cardType := Overwrite(q.cardType, entity.cardType);
    entity.transactionType := Overwrite(q.transactionType, entity.transactionType);
    entity.responseCode := Overwrite(q.responseCode, entity.responseCode);
    entity.isFlagged := Overwrite(q.isFlagged, entity.isFlagged);
  }

  /** The update's null-checked setters for `flagReason`, `riskScore`, `reviewStatus` and `channel`:
      each non-null property overwrites its field. */
  method PatchReviewFields(q: UpdateTransactionRequest, entity: TransactionEntity)
    modifies entity
    ensures entity.Snapshot() == old(entity.Snapshot()).(
      flagReason := Overwrite(q.flagReason, old(entity.flagReason)),
      riskScore := Overwrite(q.riskScore, old(entity.riskScore)),
      reviewStatus := Overwrite(q.reviewStatus, old(entity.reviewStatus)),
      channel := Overwrite(q.channel, old(entity.channel)))
  {
    entity.flagReason := Overwrite(q.flagReason, entity.flagReason);
    entity.riskScore := Overwrite(q.riskScore, entity.riskScore);
    entity.reviewStatus := Overwrite(q.reviewStatus, entity.reviewStatus);
    entity.channel := Overwrite(q.channel, entity.channel);
  }

  /** The update's null-checked setters for `ipAddress`, `deviceId`, `location` and `transactionTime`:
      each non-null property overwrites its field. */
  method PatchOriginFields(q: UpdateTransactionRequest, entity: TransactionEntity)
    modifies entity
    ensures entity.Snapshot() == old(entity.Snapshot()).(
      ipAddress := Overwrite(q.ipAddress, old(entity.ipAddress)),
      deviceId := Overwrite(q.deviceId, old(entity.deviceId)),
      location := Overwrite(q.location, old(entity.location)),
      transactionTime := Overwrite(q.transactionTime, old(entity.transactionTime)))
  {
    entity.ipAddress := Overwrite(q.ipAddress, entity.ipAddress);
    entity.deviceId := Overwrite(q.deviceId, entity.deviceId);
    entity.location := Overwrite(q.location, entity.location);
    entity.transactionTime := Overwrite(q.transactionTime, entity.transactionTime);
  }
}
