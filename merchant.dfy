/** The merchant service: merchant records in a table with a database id
    and a unique, non-null business id `merchantId`. */
module Merchants {
  import opened Wrappers
  import opened Constraints
  import opened Http

  /** The `merchant` table row. */
  datatype Merchant = Merchant(
    id: Option<int>,
    merchantId: Option<string>,
    name: Option<string>,
    acquirerName: Option<string>,
    category: Option<string>,
    domain: Option<string>,
    country: Option<string>,
    city: Option<string>,
    isHighRisk: Option<bool>,
    createdAt: Option<Timestamp>,
    updatedAt: Option<Timestamp>)

  /** The merchant payload: the row without its database id. */
  datatype MerchantDto = MerchantDto(
    merchantId: Option<string>,
    name: Option<string>,
    acquirerName: Option<string>,
    category: Option<string>,
    domain: Option<string>,
    country: Option<string>,
    city: Option<string>,
    isHighRisk: Option<bool>,
    createdAt: Option<Timestamp>,
    updatedAt: Option<Timestamp>)

  const AlreadyExistsMessage := "Merchant ID already exists"
  const CreatedMessage := "Merchant created Successfully"

  /** Why a create fails: the business id is taken (an
      `IllegalArgumentException`), it is null and the non-null column
      rejects the insert, or the repository field is null (a
      `NullPointerException`; only the service as written gets there). */
  datatype CreateFailure = IllegalArgument(message: string) | NullMerchantId | NullPointer

  /** The same-name copy from payload to row; the id is left unset. */
  function FromDto(d: MerchantDto): (m: Merchant)
    ensures m.id.None? && m.merchantId == d.merchantId
  {
    Merchant(None, d.merchantId, d.name, d.acquirerName, d.category, d.domain,
      d.country, d.city, d.isHighRisk, d.createdAt, d.updatedAt)
  }

  /** The row stored for `d` under id `id` when created at `now`. */
  function NewMerchant(d: MerchantDto, id: int, now: Timestamp): Merchant {
    FromDto(d).(id := Some(id), createdAt := Some(now), updatedAt := Some(now))
  }

  /** A stored merchant keeps every payload field except the two times,
      which both become the creation time. */
  lemma NewMerchantKeepsPayload(d: MerchantDto, id: int, now: Timestamp)
    ensures var m := NewMerchant(d, id, now);
      m.id == Some(id) && m.createdAt == Some(now) && m.updatedAt == Some(now)
      && MerchantDto(m.merchantId, m.name, m.acquirerName, m.category, m.domain, m.country,
           m.city, m.isHighRisk, d.createdAt, d.updatedAt) == d
  {
  }

  /** Whether some stored row has business id `merchantId`
      (`existsByMerchantId`; a null id matches no row). */
  predicate ExistsByMerchantId(store: map<int, Merchant>, merchantId: Option<string>) {
    merchantId.Some? && exists k :: k in store && store[k].merchantId == merchantId
  }

  /** Every row has a business id, and no two rows share one. */
  predicate UniqueMerchantIds(store: map<int, Merchant>) {
    (forall k | k in store :: store[k].merchantId.Some?)
    && forall j, k | j in store && k in store && store[j].merchantId == store[k].merchantId :: j == k
  }

  /** Inserting a row whose business id is non-null and not yet stored keeps
      business ids unique; inserting one whose business id is stored breaks
      it. */
  lemma InsertKeepsUniqueIffFresh(store: map<int, Merchant>, id: int, m: Merchant)
    requires UniqueMerchantIds(store) && id !in store && m.merchantId.Some?
    ensures UniqueMerchantIds(store[id := m]) <==> !ExistsByMerchantId(store, m.merchantId)
  {
    var after := store[id := m];
    if ExistsByMerchantId(store, m.merchantId) {
      var k :| k in store && store[k].merchantId == m.merchantId;
      assert after[k].merchantId == after[id].merchantId && k != id;
    }
  }

  /** `createMerchant` over the value of its repository field, `None` being
      Java's null. Nothing assigns the field: it has no injection
      annotation and the class has no constructor taking it. */
  function CreateMerchantAsWritten(repository: Option<map<int, Merchant>>, dto: MerchantDto): (r: Result<ResponseEntity<string>, CreateFailure>)
    ensures repository.None? ==> r == Failure(NullPointer)
    ensures repository.Some? ==>
      (r.Success? <==> dto.merchantId.Some? && !ExistsByMerchantId(repository.value, dto.merchantId))
    ensures r.Success? ==> r.value == ResponseEntity(Created, Some(CreatedMessage))
  {
    if repository.None? then Failure(NullPointer)
    else if ExistsByMerchantId(repository.value, dto.merchantId) then Failure(IllegalArgument(AlreadyExistsMessage))
    else if dto.merchantId.None? then Failure(NullMerchantId)
    else Success(ResponseEntity(Created, Some(CreatedMessage)))
  }

  /** With the field left null every create throws before the existence
      check, whereas a wired repository over an empty table accepts any
      payload that carries a business id. */
  lemma UnwiredRepositoryRejectsEveryCreate(dto: MerchantDto)
    ensures CreateMerchantAsWritten(None, dto) == Failure(NullPointer)
    ensures dto.merchantId.Some? ==> CreateMerchantAsWritten(Some(map[]), dto).Success?
  {
  }

  class MerchantService {
    /** The `merchant` table, by database id. */
    var merchants: map<int, Merchant>
    /** The next value of the identity column. */
    var nextId: int

    /** Each row sits under its own id, which is below the identity
        counter, and business ids are present and unique. */
    ghost predicate Valid()
      reads this
    {
      (forall k | k in merchants :: merchants[k].id == Some(k) && k < nextId)
      && UniqueMerchantIds(merchants)
    }

    constructor()
      ensures Valid() && merchants == map[] && nextId == 1
    {
      merchants := map[];
      nextId := 1;
    }

    /** Insert-if-absent: a taken business id is rejected with "Merchant ID
        already exists", a null one by the column, and neither changes the
        table; otherwise the stamped row is saved once and the answer is
        201. */
    method CreateMerchant(dto: MerchantDto, now: Timestamp) returns (r: Result<ResponseEntity<string>, CreateFailure>)
      requires Valid()
      modifies this
      ensures Valid()
      ensures ExistsByMerchantId(old(merchants), dto.merchantId) ==>
        r == Failure(IllegalArgument(AlreadyExistsMessage))
      ensures dto.merchantId.None? ==> r == Failure(NullMerchantId)
      ensures r.Failure? ==> merchants == old(merchants) && nextId == old(nextId)
      ensures r.Success? <==> dto.merchantId.Some? && !ExistsByMerchantId(old(merchants), dto.merchantId)
      ensures r.Success? ==>
        r.value == ResponseEntity(Created, Some(CreatedMessage))
        && merchants == old(merchants)[old(nextId) := NewMerchant(dto, old(nextId), now)]
        && nextId == old(nextId) + 1
    {
      var merchant := FromDto(dto);
      if ExistsByMerchantId(merchants, dto.merchantId) {
        return Failure(IllegalArgument(AlreadyExistsMessage));
      }
      merchant := merchant.(createdAt := Some(now), updatedAt := Some(now));
      if merchant.merchantId.None? {
        return Failure(NullMerchantId);
      }
      InsertKeepsUniqueIffFresh(merchants, nextId, merchant.(id := Some(nextId)));
      merchants := merchants[nextId := merchant.(id := Some(nextId))];
      nextId := nextId + 1;
      r := Success(ResponseEntity(Created, Some(CreatedMessage)));
    }

    /** The rows with database id `id`: the row itself, or none. */
    function GetMerchantById(id: Option<int>): (r: seq<Merchant>)
      reads this
      ensures |r| <= 1
      ensures r == [] <==> id.None? || id.value !in merchants
      ensures r != [] ==> r[0] == merchants[id.value]
    {
      if id.Some? && id.value in merchants then [merchants[id.value]] else []
    }
  }
}
