/** `TransactionService` over an in-memory `transaction` table keyed by the
    business id `transactionId`, which the table keeps unique. The database
    id comes from an identity counter. */
module TransactionServices {
  import opened Wrappers
  import opened JavaText
  import opened Constraints
  import opened Entity
  import opened ServiceMapper
  import opened Http
  import opened Exceptions
  import opened FlagRequest
  import opened ApiErrors
  import opened ExceptionHandler

  const CreatedMessage := "Transaction created successfully"
  const CreateFailedMessage := "Failed to create transaction"
  const MerchantIdBlankMessage := "Merchant ID must not be null or empty."
  const SystemUser := "system"

  /** The message of the not-found exception for `transactionId`. */
  function NotFoundMessage(transactionId: string): (r: string)
    ensures |r| > |transactionId| && r[|r| - |transactionId|..] == transactionId
  {
    "Transaction not found with transaction id: " + transactionId
  }

  /** The row `existing` after `updateTransaction` copied the DTO into it:
      the seventeen DTO fields other than `transactionId` are overwritten,
      null values included; `id`, `transactionId`, `updatedAt`, `flaggedAt`
      and `flaggedBy` keep their values. */
  function Overwritten(existing: Transaction, d: TransactionDto): Transaction {
    existing.(amount := d.amount, currency := d.currency, merchantId := d.merchantId,
      cardNumberMasked := d.cardNumberMasked, cardType := d.cardType,
      transactionType := d.transactionType, responseCode := d.responseCode,
      isFlagged := d.isFlagged, flagReason := d.flagReason, riskScore := d.riskScore,
      reviewStatus := d.reviewStatus, channel := d.channel, ipAddress := d.ipAddress,
      deviceId := d.deviceId, location := d.location, transactionTime := d.transactionTime,
      createdAt := d.createdAt)
  }

  /** After an update the record reads back as the submitted DTO, except
      that `transactionId` stays the stored one. */
  lemma UpdateReadsBackAsSubmitted(existing: Transaction, d: TransactionDto)
    ensures MapTransactionToTransactionDto(Some(Overwritten(existing, d)))
      == Some(d.(transactionId := existing.transactionId))
  {
  }

  /** The update never writes the identity and audit fields. */
  lemma UpdateKeepsAuditFields(existing: Transaction, d: TransactionDto)
    ensures var t := Overwritten(existing, d);
      t.id == existing.id && t.transactionId == existing.transactionId && t.updatedAt == existing.updatedAt
      && t.flaggedAt == existing.flaggedAt && t.flaggedBy == existing.flaggedBy
  {
  }

  /** The row `createTransaction` inserts for `d`: the mapped entity stamped
      with `now` as creation and transaction time, with the database id `id`. */
  function NewRecord(d: TransactionDto, id: int, now: Timestamp): Transaction {
    var mapped := MapTransactionDtoToTransaction(Some(d)).value;
    mapped.(id := Some(id), createdAt := Some(now), transactionTime := Some(now))
  }

  /** A created record reads back as the submitted DTO with both times set
      to the creation time. */
  lemma CreatedRecordReadsBack(d: TransactionDto, id: int, now: Timestamp)
    ensures MapTransactionToTransactionDto(Some(NewRecord(d, id, now)))
      == Some(d.(createdAt := Some(now), transactionTime := Some(now)))
  {
  }

  /** `t` flagged by `comment` at `now`. */
  function Flagged(t: Transaction, comment: Option<string>, now: Timestamp): Transaction {
    t.(isFlagged := Some(true), flagReason := comment, updatedAt := Some(now),
       flaggedAt := Some(now), flaggedBy := Some(SystemUser))
  }

  /** Flagging sets `isFlagged`, `flagReason`, `updatedAt`, `flaggedAt` and
      `flaggedBy`, and nothing else: putting those five back restores the
      record. */
  lemma FlagChangesFiveFields(t: Transaction, comment: Option<string>, now: Timestamp)
    ensures var f := Flagged(t, comment, now);
      f.isFlagged == Some(true) && f.flagReason == comment && f.flaggedBy == Some(SystemUser)
      && f.updatedAt == Some(now) && f.flaggedAt == Some(now)
    ensures Flagged(t, comment, now).(isFlagged := t.isFlagged, flagReason := t.flagReason,
      updatedAt := t.updatedAt, flaggedAt := t.flaggedAt, flaggedBy := t.flaggedBy) == t
  {
  }

  /** The repository lookup the flag operation performs, as intended: a
      missing row is an `EntityNotFoundException`. */
  function FindForFlag(store: map<string, Transaction>, transactionId: string): (r: Result<Transaction, JavaException>)
    ensures r.Success? <==> transactionId in store
    ensures r.Success? ==> r.value == store[transactionId]
    ensures r.Failure? ==> r.error == EntityNotFound(Some(NotFoundMessage(transactionId)))
  {
    if transactionId in store then Success(store[transactionId])
    else Failure(EntityNotFound(Some(NotFoundMessage(transactionId))))
  }

  /** The same lookup as written: the missing row, a null, is wrapped with
      `Optional.of`, which throws a `NullPointerException` without message
      before `orElseThrow` can run. */
  function FindForFlagAsWritten(store: map<string, Transaction>, transactionId: string): (r: Result<Transaction, JavaException>)
    ensures r.Success? <==> transactionId in store
    ensures r.Success? ==> r.value == store[transactionId]
    ensures r.Failure? ==> r.error == Unexpected(None)
  {
    if transactionId in store then Success(store[transactionId]) else Failure(Unexpected(None))
  }

  /** Flagging an unknown id: as written the client gets 500 "Internal
      server error"; as intended it gets 404 naming the id. */
  lemma MissingFlagTargetAnswered(store: map<string, Transaction>, transactionId: string, path: string, now: Timestamp)
    requires transactionId !in store
    ensures var r := Handle(FindForFlagAsWritten(store, transactionId).error, path, now);
      r.status == InternalServerError && r.body.value.message == Some(InternalServerErrorMessage)
    ensures var r := Handle(FindForFlag(store, transactionId).error, path, now);
      r.status == NotFound && r.body.value.message == Some(NotFoundMessage(transactionId))
  {
  }

  /** The rows flagged as suspicious. */
  function FlaggedRecords(store: map<string, Transaction>): (r: set<Transaction>)
    ensures forall t :: t in r ==> t in store.Values && t.isFlagged == Some(true)
    ensures forall k :: k in store && store[k].isFlagged == Some(true) ==> store[k] in r
  {
    set t | t in store.Values && t.isFlagged == Some(true)
  }

  /** The rows of the merchant `merchantId`, matched exactly. */
  function MerchantRecords(store: map<string, Transaction>, merchantId: string): (r: set<Transaction>)
    ensures forall t :: t in r ==> t in store.Values && t.merchantId == Some(merchantId)
    ensures forall k :: k in store && store[k].merchantId == Some(merchantId) ==> store[k] in r
  {
    set t | t in store.Values && t.merchantId == Some(merchantId)
  }

  /** Whether each row sits under its own `transactionId`. */
  predicate KeyedByTransactionId(store: map<string, Transaction>) {
    forall k | k in store :: store[k].transactionId == Some(k)
  }

  /** In a table keyed by `transactionId`, flagging row `k` adds the flagged
      row to the flagged set and otherwise changes only the old row's
      membership. */
  lemma FlaggingUpdatesFlaggedSet(store: map<string, Transaction>, k: string, comment: Option<string>, now: Timestamp)
    requires KeyedByTransactionId(store) && k in store
    ensures var after := store[k := Flagged(store[k], comment, now)];
      FlaggedRecords(after) == FlaggedRecords(store) - {store[k]} + {Flagged(store[k], comment, now)}
  {
    var f := Flagged(store[k], comment, now);
    var after := store[k := f];
    forall t | t in FlaggedRecords(after)
      ensures t in FlaggedRecords(store) - {store[k]} + {f}
    {
      var j :| j in after && after[j] == t;
      if j != k {
        assert store[j] == t;
        assert t.transactionId == Some(j);
      }
    }
    forall t | t in FlaggedRecords(store) - {store[k]} + {f}
      ensures t in FlaggedRecords(after)
    {
      if t == f {
        assert after[k] == f;
      } else {
        var j :| j in store && store[j] == t;
        assert j != k;
        assert after[j] == t;
      }
      assert t in after.Values;
    }
  }

  class TransactionService {
    /** The `transaction` table, by `transactionId`. */
    var transactions: map<string, Transaction>
    /** The next value of the identity column. */
    var nextId: int

    /** Each row sits under its own `transactionId` and has an id below the
        identity counter. */
    ghost predicate Valid()
      reads this
    {
      KeyedByTransactionId(transactions)
      && forall k | k in transactions :: transactions[k].id.Some? && transactions[k].id.value < nextId
    }

    constructor()
      ensures Valid() && transactions == map[] && nextId == 1
    {
      transactions := map[];
      nextId := 1;
    }

    /** 200 with the record's DTO, or 404 with no body. */
    function GetTransactionById(transId: string): (r: ResponseEntity<TransactionDto>)
      reads this
      ensures r.status == Ok <==> transId in transactions
      ensures r.status == Ok ==> r.body.Some? && CopiesSharedFields(transactions[transId], r.body.value)
      ensures r.status != Ok ==> r.status == NotFound && r.body.None?
    {
      if transId in transactions
      then ResponseEntity(Ok, MapTransactionToTransactionDto(Some(transactions[transId])))
      else ResponseEntity(NotFound, None)
    }

    /** Overwrites the stored row with the DTO's fields and answers 200 with
        the saved row; an unknown id is 404 and changes nothing. */
    method UpdateTransaction(transactionId: string, updated: TransactionDto) returns (r: ResponseEntity<TransactionDto>)
      requires Valid()
      modifies this
      ensures Valid() && nextId == old(nextId)
      ensures transactionId !in old(transactions) ==>
        r == ResponseEntity(NotFound, None) && transactions == old(transactions)
      ensures transactionId in old(transactions) ==>
        var saved := Overwritten(old(transactions)[transactionId], updated);
        transactions == old(transactions)[transactionId := saved]
        && r == ResponseEntity(Ok, MapTransactionToTransactionDto(Some(saved)))
    {
      if transactionId !in transactions {
        return ResponseEntity(NotFound, None);
      }
      var saved := Overwritten(transactions[transactionId], updated);
      transactions := transactions[transactionId := saved];
      r := ResponseEntity(Ok, MapTransactionToTransactionDto(Some(saved)));
    }

    /** Maps and stamps the DTO and inserts it: 201 on success; a null DTO, a
        null `transactionId` or one already stored makes the insert fail,
        which is answered 400 with nothing stored. */
    method CreateTransaction(dto: Option<TransactionDto>, now: Timestamp) returns (r: ResponseEntity<string>)
      requires Valid()
      modifies this
      ensures Valid()
      ensures r.status == Created <==>
        dto.Some? && dto.value.transactionId.Some? && dto.value.transactionId.value !in old(transactions)
      ensures r.status == Created ==>
        r.body == Some(CreatedMessage) && nextId == old(nextId) + 1
        && transactions == old(transactions)[dto.value.transactionId.value := NewRecord(dto.value, old(nextId), now)]
      ensures r.status != Created ==>
        r == ResponseEntity(BadRequest, Some(CreateFailedMessage))
        && transactions == old(transactions) && nextId == old(nextId)
    {
      var mapped := MapTransactionDtoToTransaction(dto);
      if mapped.None? {
        return ResponseEntity(BadRequest, Some(CreateFailedMessage));
      }
      var t := mapped.value.(createdAt := Some(now), transactionTime := Some(now));
      if t.transactionId.None? || t.transactionId.value in transactions {
        return ResponseEntity(BadRequest, Some(CreateFailedMessage));
      }
      transactions := transactions[t.transactionId.value := t.(id := Some(nextId))];
      nextId := nextId + 1;
      r := ResponseEntity(Created, Some(CreatedMessage));
    }

    /** Flags the row and saves it, returning the saved row; a missing row
        is an `EntityNotFoundException` and changes nothing. */
    method FlagTransaction(transactionId: string, request: FlagTransactionRequest, now: Timestamp)
      returns (r: Result<Transaction, JavaException>)
      requires Valid()
      modifies this
      ensures Valid() && nextId == old(nextId)
      ensures r.Failure? <==> transactionId !in old(transactions)
      ensures r.Failure? ==>
        r.error == EntityNotFound(Some(NotFoundMessage(transactionId))) && transactions == old(transactions)
      ensures r.Success? ==>
        r.value == Flagged(old(transactions)[transactionId], request.comment, now)
        && transactions == old(transactions)[transactionId := r.value]
        && r.value in FlaggedRecords(transactions)
    {
      var found := FindForFlag(transactions, transactionId);
      if found.Failure? {
        return Failure(found.error);
      }
      var txn := Flagged(found.value, request.comment, now);
      transactions := transactions[transactionId := txn];
      r := Success(txn);
    }

    /** `flagTransaction` as written: a missing row raises a
        `NullPointerException` instead. */
    method FlagTransactionAsWritten(transactionId: string, request: FlagTransactionRequest, now: Timestamp)
      returns (r: Result<Transaction, JavaException>)
      requires Valid()
      modifies this
      ensures Valid() && nextId == old(nextId)
      ensures r.Failure? <==> transactionId !in old(transactions)
      ensures r.Failure? ==> r.error == Unexpected(None) && transactions == old(transactions)
      ensures r.Success? ==>
        r.value == Flagged(old(transactions)[transactionId], request.comment, now)
        && transactions == old(transactions)[transactionId := r.value]
    {
      var found := FindForFlagAsWritten(transactions, transactionId);
      if found.Failure? {
        return Failure(found.error);
      }
      var txn := Flagged(found.value, request.comment, now);
      transactions := transactions[transactionId := txn];
      r := Success(txn);
    }

    /** The flagged rows. */
    function GetFlaggedTransactions(): (r: set<Transaction>)
      reads this
      ensures r == FlaggedRecords(transactions)
      ensures forall t :: t in r ==> t.isFlagged == Some(true)
    {
      FlaggedRecords(transactions)
    }

    /** The rows of a merchant; a null id, or one that trims to nothing, is
        an `IllegalArgumentException` raised before any lookup. */
    function GetTransactionsByMerchant(merchantId: Option<string>): (r: Result<set<Transaction>, JavaException>)
      reads this
      ensures r.Failure? <==> merchantId.None? || IsTrimBlank(merchantId.value)
      ensures r.Failure? ==> r.error == IllegalArgument(Some(MerchantIdBlankMessage))
      ensures r.Success? ==> r.value == MerchantRecords(transactions, merchantId.value)
    {
      TrimEmptyIffTrimBlank(merchantId.GetOr([]));
      if merchantId.None? || Trim(merchantId.value) == []
      then Failure(IllegalArgument(Some(MerchantIdBlankMessage)))
      else Success(MerchantRecords(transactions, merchantId.value))
    }
  }
}
