/** The `transaction` table's entity. Its value is the datatype `Transaction`;
    the mutable JPA object that setters and the update mapping write to is the
    class `TransactionEntity`, whose `Snapshot` is that value. */
module Entity {
  import opened Wrappers
  import opened Constraints

  /** One row of the `transaction` table. Every column may be null except
      `transactionId`, which the database requires and keeps unique. */
  datatype Transaction = Transaction(
    id: Option<int>,
    transactionId: Option<string>,
    amount: Option<int>,
    currency: Option<string>,
    merchantId: Option<string>,
    cardNumberMasked: Option<string>,
    cardType: Option<string>,
    transactionType: Option<string>,
    responseCode: Option<string>,
    isFlagged: Option<bool>,
    flagReason: Option<string>,
    flaggedAt: Option<Timestamp>,
    flaggedBy: Option<string>,
    riskScore: Option<int>,
    reviewStatus: Option<string>,
    channel: Option<string>,
    ipAddress: Option<string>,
    deviceId: Option<string>,
    location: Option<string>,
    transactionTime: Option<Timestamp>,
    createdAt: Option<Timestamp>,
    updatedAt: Option<Timestamp>)

  /** A transaction as the builder or the no-argument constructor makes it:
      every field null. */
  const Blank := Transaction(None, None, None, None, None, None, None, None, None, None, None,
                             None, None, None, None, None, None, None, None, None, None, None)

  /** The mutable entity object. */
  class TransactionEntity {
    var id: Option<int>
    var transactionId: Option<string>
    var amount: Option<int>
    var currency: Option<string>
    var merchantId: Option<string>
    var cardNumberMasked: Option<string>
    var cardType: Option<string>
    var transactionType: Option<string>
    var responseCode: Option<string>
    var isFlagged: Option<bool>
    var flagReason: Option<string>
    var flaggedAt: Option<Timestamp>
    var flaggedBy: Option<string>
    var riskScore: Option<int>
    var reviewStatus: Option<string>
    var channel: Option<string>
    var ipAddress: Option<string>
    var deviceId: Option<string>
    var location: Option<string>
    var transactionTime: Option<Timestamp>
    var createdAt: Option<Timestamp>
    var updatedAt: Option<Timestamp>

    /** The entity's current field values. */
    function Snapshot(): Transaction
      reads this
    {
      Transaction(id, transactionId, amount, currency, merchantId, cardNumberMasked, cardType,
                  transactionType, responseCode, isFlagged, flagReason, flaggedAt, flaggedBy,
                  riskScore, reviewStatus, channel, ipAddress, deviceId, location,
                  transactionTime, createdAt, updatedAt)
    }

    /** An entity holding the values of `t`. */
    constructor(t: Transaction)
      ensures Snapshot() == t
    {
      id, transactionId, amount, currency, merchantId := t.id, t.transactionId, t.amount, t.currency, t.merchantId;
      cardNumberMasked, cardType, transactionType, responseCode := t.cardNumberMasked, t.cardType, t.transactionType, t.responseCode;
      isFlagged, flagReason, flaggedAt, flaggedBy := t.isFlagged, t.flagReason, t.flaggedAt, t.flaggedBy;
      riskScore, reviewStatus, channel, ipAddress := t.riskScore, t.reviewStatus, t.channel, t.ipAddress;
      deviceId, location, transactionTime, createdAt, updatedAt := t.deviceId, t.location, t.transactionTime, t.createdAt, t.updatedAt;
    }
  }
}
