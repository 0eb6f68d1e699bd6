/** The fallback the merchant client answers with when the merchant
    service cannot be reached. */
module MerchantFallback {
  import opened Wrappers

  /** The merchant record the client reads. */
  datatype MerchantResponse = MerchantResponse(
    merchantId: Option<string>,
    name: Option<string>,
    location: Option<string>,
    category: Option<string>)

  const UnknownName := "UNKNOWN"
  const NotAvailable := "N/A"

  /** The placeholder record for `merchantId`. */
  function GetMerchantById(merchantId: Option<string>): (r: MerchantResponse)
    ensures r.merchantId == merchantId
    ensures r.name == Some(UnknownName)
    ensures r.location == Some(NotAvailable) && r.category == Some(NotAvailable)
  {
    MerchantResponse(merchantId, Some(UnknownName), Some(NotAvailable), Some(NotAvailable))
  }

  /** The placeholder depends on nothing but the id: two calls agree
      exactly when their ids do. */
  lemma FallbackDeterminedById(a: Option<string>, b: Option<string>)
    ensures GetMerchantById(a) == GetMerchantById(b) <==> a == b
  {
  }
}
