/** The page the VNPAY payment gateway redirects back to. It reads the
    gateway's return parameters from the query string, forwards the response
    code and the order id to the server for reconciliation, and shows a
    success or failure banner from the response code alone. */
module OrderSuccessPage {
  import opened Common

  const ResponseCodeKey: string := "vnp_ResponseCode"
  const MerchantCodeKey: string := "vnp_TmnCode"
  const OrderIdKey: string := "vnp_TxnRef"
  const SuccessCode: string := "00"

  /** A query string as its ordered list of (name, value) pairs. */
  type Query = seq<(string, string)>

  /** `searchParams.get(key)`: the value of the first pair with that name. */
  function QueryGet(q: Query, key: string): (r: Option<string>)
    ensures r.None? <==> forall i :: 0 <= i < |q| ==> q[i].0 != key
    ensures r.Some? ==> exists i :: 0 <= i < |q| && q[i] == (key, r.value) && forall j :: 0 <= j < i ==> q[j].0 != key
  {
    if |q| == 0 then None
    else if q[0].0 == key then Some(q[0].1)
    else
      var r := QueryGet(q[1..], key);
      if r.Some? then
        ghost var i :| 0 <= i < |q| - 1 && q[1..][i] == (key, r.value) && forall j :: 0 <= j < i ==> q[1..][j].0 != key;
        assert q[i + 1] == (key, r.value);
        r
      else r
  }

  datatype ReturnParams = ReturnParams(responseCode: Option<string>, merchantCode: Option<string>, orderId: Option<string>)

  function ParseReturn(q: Query): (p: ReturnParams)
    ensures p.responseCode == QueryGet(q, ResponseCodeKey)
    ensures p.merchantCode == QueryGet(q, MerchantCodeKey)
    ensures p.orderId == QueryGet(q, OrderIdKey)
  {
    ReturnParams(QueryGet(q, ResponseCodeKey), QueryGet(q, MerchantCodeKey), QueryGet(q, OrderIdKey))
  }

  /** The reconciliation request body: only the response code and the order id. */
  datatype ReconcileRequest = ReconcileRequest(responseCode: string, orderId: string)

  /** `handleReturn`: no request unless both values are present and non-empty. */
  function ReconcileRequestFor(p: ReturnParams): (r: Option<ReconcileRequest>)
    ensures r.Some? <==> Truthy(p.responseCode) && Truthy(p.orderId)
    ensures r.Some? ==> r.value.responseCode == p.responseCode.value && r.value.orderId == p.orderId.value
  {
    if Truthy(p.responseCode) && Truthy(p.orderId) then
      Some(ReconcileRequest(p.responseCode.value, p.orderId.value))
    else None
  }

  /** The merchant code never reaches the server: two returns that differ
      only in it produce the same request. */
  lemma MerchantCodeIsNotForwarded(p: ReturnParams, merchant: Option<string>)
    ensures ReconcileRequestFor(p.(merchantCode := merchant)) == ReconcileRequestFor(p)
  {
  }

  datatype Banner = SuccessBanner | FailureBanner

  /** The banner depends only on the response code, not on the
      reconciliation's outcome: "00" is success, anything else (a missing
      code included) is failure. */
  function BannerFor(p: ReturnParams): (b: Banner)
    ensures b == SuccessBanner <==> p.responseCode == Some(SuccessCode)
    ensures p.responseCode.None? ==> b == FailureBanner
  {
    if p.responseCode == Some(SuccessCode) then SuccessBanner else FailureBanner
  }

  /** The effect re-runs when the response code or the order id changes,
      and only then; a query change it skips leaves the banner as it was. */
  predicate EffectReruns(before: ReturnParams, after: ReturnParams)
    ensures !EffectReruns(before, after) ==> BannerFor(after) == BannerFor(before)
  {
    before.responseCode != after.responseCode || before.orderId != after.orderId
  }

  /** A query change the effect skips could not have produced a different
      request: the dependency list holds everything the request is built from. */
  lemma SkippedRerunSendsSameRequest(before: ReturnParams, after: ReturnParams)
    ensures !EffectReruns(before, after) ==> ReconcileRequestFor(after) == ReconcileRequestFor(before)
  {
  }

  /** Scenario: a return query with a successful code and an order id sends
      (code, order id) and shows the success banner; one without the order id
      sends nothing and still shows success. */
  lemma ReturnScenario()
    ensures var p := ParseReturn([("vnp_Amount", "1000"), ("vnp_ResponseCode", "00"), ("vnp_TmnCode", "SHOP1"), ("vnp_TxnRef", "o42")]);
            ReconcileRequestFor(p) == Some(ReconcileRequest("00", "o42")) && BannerFor(p) == SuccessBanner
    ensures var p := ParseReturn([("vnp_ResponseCode", "00")]);
            ReconcileRequestFor(p).None? && BannerFor(p) == SuccessBanner
  {
  }
}
