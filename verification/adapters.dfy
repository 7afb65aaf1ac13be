/** The merchant adapter contract: the operations every merchant integration offers,
    and the base every adapter extends, which fixes the merchant name once and
    namespaces every id with it. */
module Adapters {
  import opened Wrappers
  import Ids

  /** The operations of the merchant interface. */
  datatype Operation = SearchProducts | CreateOrder | GetOrder | TrackOrder

  /** The operations no adapter may omit. */
  const Mandatory: set<Operation> := {SearchProducts, CreateOrder, GetOrder}

  /** The base class adapters can extend. Its merchant name is set by the constructor,
      and the base's own operations never reassign it afterwards. */
  datatype BaseAdapter = BaseAdapter(merchantName: string) {

    /** The namespaced id of one of this merchant's products. */
    function GenerateProductId(merchantProductId: string): (id: string)
      ensures Ids.ProductPrefix <= id
      ensures Ids.StripNamespace(Ids.ProductPrefix, merchantName, id) == Some(merchantProductId)
      ensures Ids.NoSeparator(merchantName) ==>
                Ids.ParseId(Ids.ProductPrefix, id) == Some(Ids.IdParts(merchantName, merchantProductId))
    {
      var id := Ids.ProductId(merchantName, merchantProductId);
      assert Ids.NoSeparator(merchantName) ==>
               Ids.ParseId(Ids.ProductPrefix, id) == Some(Ids.IdParts(merchantName, merchantProductId)) by {
        if Ids.NoSeparator(merchantName) {
          Ids.ParseNamespaced(Ids.ProductPrefix, merchantName, merchantProductId);
        }
      }
      Ids.StripNamespaced(Ids.ProductPrefix, merchantName, merchantProductId);
      id
    }

    /** The namespaced id of one of this merchant's orders. */
    function GenerateOrderId(merchantOrderId: string): (id: string)
      ensures Ids.OrderPrefix <= id
      ensures Ids.StripNamespace(Ids.OrderPrefix, merchantName, id) == Some(merchantOrderId)
      ensures Ids.NoSeparator(merchantName) ==>
                Ids.ParseId(Ids.OrderPrefix, id) == Some(Ids.IdParts(merchantName, merchantOrderId))
    {
      var id := Ids.OrderId(merchantName, merchantOrderId);
      assert Ids.NoSeparator(merchantName) ==>
               Ids.ParseId(Ids.OrderPrefix, id) == Some(Ids.IdParts(merchantName, merchantOrderId)) by {
        if Ids.NoSeparator(merchantName) {
          Ids.ParseNamespaced(Ids.OrderPrefix, merchantName, merchantOrderId);
        }
      }
      Ids.StripNamespaced(Ids.OrderPrefix, merchantName, merchantOrderId);
      id
    }
  }

  /** A merchant adapter that extends the base: the base, and whether it implements
      the optional tracking operation. */
  datatype Adapter = Adapter(base: BaseAdapter, supportsTrack: bool)

  /** The operations an adapter offers: always the mandatory three, and tracking
      exactly when the adapter declares it. */
  function Operations(a: Adapter): (ops: set<Operation>)
    ensures Mandatory <= ops
    ensures TrackOrder in ops <==> a.supportsTrack
    ensures forall op :: op in ops ==> op in Mandatory || op == TrackOrder
  {
    if a.supportsTrack then Mandatory + {TrackOrder} else Mandatory
  }

  /** An adapter that adds nothing to the base offers no tracking, since the base
      does not declare that operation. */
  function FromBase(merchantName: string): (a: Adapter)
    ensures a.base.merchantName == merchantName
    ensures Operations(a) == Mandatory && TrackOrder !in Operations(a)
  {
    Adapter(BaseAdapter(merchantName), false)
  }

  /** One request for an id, as an adapter makes it while normalising a product or
      an order. */
  datatype IdRequest = ForProduct(local: string) | ForOrder(local: string)

  /** The id the adapter hands out for a request. */
  function Issue(a: BaseAdapter, req: IdRequest): string {
    match req
    case ForProduct(l) => a.GenerateProductId(l)
    case ForOrder(l) => a.GenerateOrderId(l)
  }

  /** `id` answers `req` for merchant `m`: it has the request's prefix and holds `m`
      followed by the request's merchant-side id. */
  predicate Answers(m: string, req: IdRequest, id: string) {
    match req
    case ForProduct(l) => Ids.StripNamespace(Ids.ProductPrefix, m, id) == Some(l)
    case ForOrder(l) => Ids.StripNamespace(Ids.OrderPrefix, m, id) == Some(l)
  }

  /** The merchant named in an id of the request's kind, if it can be read. */
  function MerchantOf(req: IdRequest, id: string): Option<string> {
    var prefix := if req.ForProduct? then Ids.ProductPrefix else Ids.OrderPrefix;
    match Ids.ParseId(prefix, id)
    case Some(parts) => Some(parts.merchant)
    case None => None
  }

  /** The id handed out for a request answers it, and names the adapter's merchant
      when that name holds no separator. */
  lemma IssueAnswers(a: BaseAdapter, req: IdRequest)
    ensures Answers(a.merchantName, req, Issue(a, req))
    ensures Ids.NoSeparator(a.merchantName) ==> MerchantOf(req, Issue(a, req)) == Some(a.merchantName)
  {
  }

  /** One adapter hands out distinct ids for distinct requests, whatever its name. */
  lemma IssueInjective(a: BaseAdapter, r1: IdRequest, r2: IdRequest)
    ensures Issue(a, r1) == Issue(a, r2) <==> r1 == r2
  {
    var m := a.merchantName;
    match (r1, r2)
    case (ForProduct(p1), ForProduct(p2)) => Ids.ProductIdInjectiveInLocal(m, p1, p2);
    case (ForOrder(o1), ForOrder(o2)) => Ids.OrderIdInjectiveInLocal(m, o1, o2);
    case (ForProduct(p), ForOrder(o)) => Ids.ProductAndOrderIdsDisjoint(m, p, m, o);
    case (ForOrder(o), ForProduct(p)) => Ids.ProductAndOrderIdsDisjoint(m, p, m, o);
  }

  /** Two adapters with different separator-free names never hand out the same id. */
  lemma DistinctMerchantsNeverShareIds(a: BaseAdapter, b: BaseAdapter, r1: IdRequest, r2: IdRequest)
    requires Ids.NoSeparator(a.merchantName) && Ids.NoSeparator(b.merchantName)
    requires a.merchantName != b.merchantName
    ensures Issue(a, r1) != Issue(b, r2)
  {
    match (r1, r2)
    case (ForProduct(p1), ForProduct(p2)) =>
      Ids.ProductIdInjective(a.merchantName, p1, b.merchantName, p2);
    case (ForOrder(o1), ForOrder(o2)) =>
      Ids.OrderIdInjective(a.merchantName, o1, b.merchantName, o2);
    case (ForProduct(p), ForOrder(o)) =>
      Ids.ProductAndOrderIdsDisjoint(a.merchantName, p, b.merchantName, o);
    case (ForOrder(o), ForProduct(p)) =>
      Ids.ProductAndOrderIdsDisjoint(b.merchantName, p, a.merchantName, o);
  }

  /** Hands out ids for a run of requests made by one adapter over its lifetime.
      Every id carries the adapter's name and the requested merchant-side id, reads
      back to that name when it holds no separator, and no id is handed out twice
      for different requests. */
  method IssueAll(a: BaseAdapter, reqs: seq<IdRequest>) returns (ids: seq<string>)
    ensures |ids| == |reqs|
    ensures forall i :: 0 <= i < |ids| ==> Answers(a.merchantName, reqs[i], ids[i])
    ensures Ids.NoSeparator(a.merchantName) ==>
              forall i :: 0 <= i < |ids| ==> MerchantOf(reqs[i], ids[i]) == Some(a.merchantName)
    ensures forall i, j :: 0 <= i < |ids| && 0 <= j < |ids| && reqs[i] != reqs[j] ==> ids[i] != ids[j]
  {
    ids := [];
    var n := 0;
    while n < |reqs|
      invariant n <= |reqs| && |ids| == n
      invariant forall i :: 0 <= i < n ==> ids[i] == Issue(a, reqs[i])
    {
      ids := ids + [Issue(a, reqs[n])];
      n := n + 1;
    }
    forall i | 0 <= i < |ids|
      ensures Answers(a.merchantName, reqs[i], ids[i])
      ensures Ids.NoSeparator(a.merchantName) ==> MerchantOf(reqs[i], ids[i]) == Some(a.merchantName)
    {
      IssueAnswers(a, reqs[i]);
    }
    forall i, j | 0 <= i < |ids| && 0 <= j < |ids| && reqs[i] != reqs[j]
      ensures ids[i] != ids[j]
    {
      IssueInjective(a, reqs[i], reqs[j]);
    }
  }
}
