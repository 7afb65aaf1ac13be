/** Namespaced identifiers: the product and order ids a merchant adapter hands out,
    `ucp_prod_<merchant>_<merchantProductId>` and `ucp_order_<merchant>_<merchantOrderId>`,
    together with the inverse readings used to state what such an id determines. */
module Ids {
  import opened Wrappers

  const ProductPrefix: string := "ucp_prod_"
  const OrderPrefix: string := "ucp_order_"
  const Separator: char := '_'

  /** A merchant name that can be read back out of an id: it holds no separator. */
  predicate NoSeparator(s: string) {
    Separator !in s
  }

  /** `id` consists of `prefix`, then `merchant`, then one separator, then `local`. */
  predicate LaidOut(id: string, prefix: string, merchant: string, local: string) {
    var m := |prefix| + |merchant|;
    && |id| == m + 1 + |local|
    && id[..|prefix|] == prefix
    && id[|prefix|..m] == merchant
    && id[m] == Separator
    && id[m + 1..] == local
  }

  /** The template literal shared by both generators. */
  function Namespaced(prefix: string, merchant: string, local: string): (id: string)
    ensures LaidOut(id, prefix, merchant, local)
  {
    prefix + merchant + [Separator] + local
  }

  /** The id of the product `local` of merchant `merchant`. */
  function ProductId(merchant: string, local: string): (id: string)
    ensures LaidOut(id, ProductPrefix, merchant, local)
    ensures ProductPrefix <= id
    ensures |id| == 10 + |merchant| + |local| && id[10 + |merchant|..] == local
  {
    Namespaced(ProductPrefix, merchant, local)
  }

  /** The id of the order `local` of merchant `merchant`. */
  function OrderId(merchant: string, local: string): (id: string)
    ensures LaidOut(id, OrderPrefix, merchant, local)
    ensures OrderPrefix <= id
    ensures |id| == 11 + |merchant| + |local| && id[11 + |merchant|..] == local
  {
    Namespaced(OrderPrefix, merchant, local)
  }

  /** The position of the first separator in `s` at or after `from`, if any. */
  function FindSeparator(s: string, from: nat): (k: Option<nat>)
    requires from <= |s|
    ensures k.Some? ==> from <= k.value < |s| && s[k.value] == Separator
    ensures k.Some? ==> forall j :: from <= j < k.value ==> s[j] != Separator
    ensures k.None? ==> forall j :: from <= j < |s| ==> s[j] != Separator
    decreases |s| - from
  {
    if from == |s| then None
    else if s[from] == Separator then Some(from)
    else FindSeparator(s, from + 1)
  }

  /** The two components of a namespaced id. */
  datatype IdParts = IdParts(merchant: string, local: string)

  /** Reads an id with the given prefix: the merchant is the text between the prefix
      and the next separator, the merchant-side id is everything after it. */
  function ParseId(prefix: string, id: string): (r: Option<IdParts>)
    ensures r.Some? ==> NoSeparator(r.value.merchant)
    ensures r.Some? ==> id == Namespaced(prefix, r.value.merchant, r.value.local)
  {
    if !(prefix <= id) then None
    else
      match FindSeparator(id, |prefix|)
      case None => None
      case Some(k) =>
        var parts := IdParts(id[|prefix|..k], id[k + 1..]);
        assert id == prefix + parts.merchant + [Separator] + parts.local by {
          assert id == id[..|prefix|] + id[|prefix|..k] + id[k..k + 1] + id[k + 1..];
        }
        Some(parts)
  }

  /** Reads the merchant-side id out of `id`, given the merchant it should belong to. */
  function StripNamespace(prefix: string, merchant: string, id: string): (r: Option<string>)
    ensures r.Some? ==> id == Namespaced(prefix, merchant, r.value)
    ensures r.None? ==> forall l :: id != Namespaced(prefix, merchant, l)
  {
    var head := prefix + merchant + [Separator];
    if head <= id then
      assert id == head + id[|head|..];
      Some(id[|head|..])
    else
      assert forall l :: head <= Namespaced(prefix, merchant, l);
      None
  }

  /** Reading back a namespaced id recovers the merchant and the merchant-side id,
      provided the merchant name holds no separator. */
  lemma ParseNamespaced(prefix: string, merchant: string, local: string)
    requires NoSeparator(merchant)
    ensures ParseId(prefix, Namespaced(prefix, merchant, local)) == Some(IdParts(merchant, local))
  {
    var id := Namespaced(prefix, merchant, local);
    var m := |prefix| + |merchant|;
    assert prefix <= id;
    forall j | |prefix| <= j < m
      ensures id[j] != Separator
    {
      assert id[j] == merchant[j - |prefix|];
    }
    var k := FindSeparator(id, |prefix|);
    assert k == Some(m);
  }

  /** Whatever the merchant name, the merchant-side id is recovered from the id. */
  lemma StripNamespaced(prefix: string, merchant: string, local: string)
    ensures StripNamespace(prefix, merchant, Namespaced(prefix, merchant, local)) == Some(local)
  {
  }

  /** For a fixed merchant, product ids are injective in the merchant-side id. */
  lemma ProductIdInjectiveInLocal(merchant: string, p1: string, p2: string)
    ensures ProductId(merchant, p1) == ProductId(merchant, p2) <==> p1 == p2
  {
    StripNamespaced(ProductPrefix, merchant, p1);
    StripNamespaced(ProductPrefix, merchant, p2);
  }

  /** For a fixed merchant, order ids are injective in the merchant-side id. */
  lemma OrderIdInjectiveInLocal(merchant: string, o1: string, o2: string)
    ensures OrderId(merchant, o1) == OrderId(merchant, o2) <==> o1 == o2
  {
    StripNamespaced(OrderPrefix, merchant, o1);
    StripNamespaced(OrderPrefix, merchant, o2);
  }

  /** Product ids are injective in the (merchant, merchant-side id) pair over merchant
      names without a separator. */
  lemma ProductIdInjective(m1: string, p1: string, m2: string, p2: string)
    requires NoSeparator(m1) && NoSeparator(m2)
    ensures ProductId(m1, p1) == ProductId(m2, p2) <==> m1 == m2 && p1 == p2
  {
    ParseNamespaced(ProductPrefix, m1, p1);
    ParseNamespaced(ProductPrefix, m2, p2);
  }

  /** Order ids are injective in the (merchant, merchant-side id) pair over merchant
      names without a separator. */
  lemma OrderIdInjective(m1: string, o1: string, m2: string, o2: string)
    requires NoSeparator(m1) && NoSeparator(m2)
    ensures OrderId(m1, o1) == OrderId(m2, o2) <==> m1 == m2 && o1 == o2
  {
    ParseNamespaced(OrderPrefix, m1, o1);
    ParseNamespaced(OrderPrefix, m2, o2);
  }

  /** Without the no-separator condition the pair is not recoverable: merchant `a_b`
      with product `c` and merchant `a` with product `b_c` share one id. */
  lemma ProductIdCollision()
    ensures ProductId("a_b", "c") == ProductId("a", "b_c")
    ensures exists m1, p1, m2, p2 :: m1 != m2 && ProductId(m1, p1) == ProductId(m2, p2)
  {
    assert ProductId("a_b", "c") == "ucp_prod_a_b_c" == ProductId("a", "b_c");
    assert "a_b" != "a" by { assert |"a_b"| != |"a"|; }
  }

  /** The same collision among order ids. */
  lemma OrderIdCollision()
    ensures OrderId("a_b", "c") == OrderId("a", "b_c")
    ensures exists m1, o1, m2, o2 :: m1 != m2 && OrderId(m1, o1) == OrderId(m2, o2)
  {
    assert OrderId("a_b", "c") == "ucp_order_a_b_c" == OrderId("a", "b_c");
    assert "a_b" != "a" by { assert |"a_b"| != |"a"|; }
  }

  /** No product id is an order id and no order id is a product id: the prefixes differ
      at index 4, so neither reading accepts the other kind. */
  lemma ProductAndOrderIdsDisjoint(m1: string, p: string, m2: string, o: string)
    ensures ProductId(m1, p) != OrderId(m2, o)
    ensures ParseId(OrderPrefix, ProductId(m1, p)) == None
    ensures ParseId(ProductPrefix, OrderId(m2, o)) == None
  {
    var pid := ProductId(m1, p);
    var oid := OrderId(m2, o);
    assert pid[4] == ProductPrefix[4] == 'p';
    assert oid[4] == OrderPrefix[4] == 'o';
    assert !(OrderPrefix <= pid);
    assert !(ProductPrefix <= oid);
  }
}
