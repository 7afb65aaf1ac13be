# BuyAI commerce gateway — verified model of the id scheme and the UCP data model

The gateway normalises many merchant backends into one canonical vocabulary, the
Universal Commerce Protocol (UCP). This project models the two parts of it that are
written down as code:

- **Namespaced ids** (`BaseAdapter.generateProductId` / `generateOrderId`). A product id
  is `ucp_prod_<merchant>_<merchantProductId>` and an order id is
  `ucp_order_<merchant>_<merchantOrderId>`. Here the merchant is the adapter's
  `merchantName`, which the constructor sets and `BaseAdapter`'s own methods never
  reassign. The model proves several facts about these ids:
  - their layout;
  - that product and order ids never collide;
  - that an id determines the merchant-side id for a fixed merchant;
  - that an id determines the (merchant, merchant-side id) pair when merchant names hold
    no `_`;
  - by a concrete collision, that this condition cannot be dropped.
- **The canonical data model** (`UCPProduct`, `UCPSearchQuery`, `UCPOrder`, `UCPOrderItem`,
  `Address`, `OrderStatus`, `UCPOrderResponse`, `SearchResponse`, `ErrorResponse`). These
  are modelled as Dafny datatypes:
  - money is `int` cents (`Ucp.Cents`);
  - optional properties are `Option`;
  - `OrderStatus` is a closed enumeration of seven constructors, whose string literals
    are given by `Ucp.StatusName`;
  - `ErrorResponse.success` has the literal type `false`, modelled as a subset type.

  Well-formedness predicates tie a product's or order's `id` to its `merchant` and
  merchant-side id.
- **The merchant interface** (`UCPMerchant`). An adapter that extends `BaseAdapter` is
  modelled as its base plus an explicit `supportsTrack` flag. The three mandatory operations are always offered, and `trackOrder`
  is offered only when that flag is set.

Modules: `Wrappers` (`Option`), `Ids` (id construction and its inverse readings), `Ucp` (the
data model), `Adapters` (the base adapter, the capability set, and a run of id generations
by one adapter).

The gateway's intended id wire format has merchant keys that contain no `_`, so that
the merchant can be read back from an id. The code does not enforce this:
`BaseAdapter`'s constructor accepts any string, and the model follows the code. So no lemma assumes the restriction silently.
The pair-injectivity and routing lemmas require `Ids.NoSeparator` explicitly, and
`Ids.ProductIdCollision` / `Ids.OrderIdCollision` show what goes wrong without it.

## Model

| member | source | states |
|---|---|---|
| Ids.Namespaced | packages/gateway/src/adapters/base.ts:43-52 | the shared template lays an id out as prefix, merchant name, one `_`, merchant-side id, at the stated positions |
| Ids.ProductId | packages/gateway/src/adapters/base.ts:43-45 | a product id starts with `ucp_prod_`, holds the merchant name right after it, and ends with the merchant product id from index 10+\|merchant\| on |
| Ids.OrderId | packages/gateway/src/adapters/base.ts:50-52 | an order id starts with `ucp_order_`, holds the merchant name right after it, and ends with the merchant order id from index 11+\|merchant\| on |
| Ids.ParseId | packages/gateway/src/adapters/base.ts:43-52 | reading the merchant as the text up to the first `_` after the prefix gives a separator-free merchant and a merchant-side id that rebuild the id exactly |
| Ids.StripNamespace | packages/gateway/src/adapters/base.ts:43-52 | given the merchant, the merchant-side id is read back exactly when the id has that merchant's namespace, and nothing is read otherwise |
| Ids.ParseNamespaced | packages/gateway/src/adapters/base.ts:43-52 | for a merchant name without `_`, reading a generated id returns the merchant and merchant-side id it was built from |
| Ids.StripNamespaced | packages/gateway/src/adapters/base.ts:43-52 | for any merchant name, the merchant-side id is recovered from a generated id |
| Ids.ProductIdInjectiveInLocal | packages/gateway/src/adapters/base.ts:43-45 | for a fixed merchant, two product ids are equal iff their merchant product ids are equal |
| Ids.OrderIdInjectiveInLocal | packages/gateway/src/adapters/base.ts:50-52 | for a fixed merchant, two order ids are equal iff their merchant order ids are equal |
| Ids.ProductIdInjective | packages/gateway/src/adapters/base.ts:43-45 | over merchant names without `_`, two product ids are equal iff both merchant and merchant product id are equal |
| Ids.OrderIdInjective | packages/gateway/src/adapters/base.ts:50-52 | over merchant names without `_`, two order ids are equal iff both merchant and merchant order id are equal |
| Ids.ProductIdCollision | packages/gateway/src/adapters/base.ts:44 | merchant `a_b` with product `c` and merchant `a` with product `b_c` get the same product id, so different merchants can share an id |
| Ids.OrderIdCollision | packages/gateway/src/adapters/base.ts:51 | the same collision happens for order ids |
| Ids.ProductAndOrderIdsDisjoint | packages/gateway/src/adapters/base.ts:43-52 | no product id equals any order id, and neither kind of id is read as the other kind |
| Ucp.StatusesExactlySeven | packages/shared/src/types/index.ts:65-72 | there are exactly seven distinct order statuses, every status is one of them, and each status's literal reads back as that status |
| Ucp.StatusName | packages/shared/src/types/index.ts:65-72 | each status's wire string is one of the seven literals of the union type, and reads back as that same status |
| Ucp.ParseStatus | packages/shared/src/types/index.ts:65-72 | a string is accepted as a status iff it is one of the seven literals of the union type |
| Ucp.ParseStatusExact | packages/shared/src/types/index.ts:65-72 | a string is accepted as a status iff it is the literal of some status, and an accepted string is exactly the literal of the status it is read as |
| Ucp.ErrorResponseNeverSucceeds | packages/shared/src/types/index.ts:92-99 | the success flag of every error response is false |
| Ucp.ProductWellFormed | packages/shared/src/types/index.ts:3-9 | the `ucp_prod_xxx` id form: a product is well-formed iff stripping its merchant's product namespace from its id leaves exactly its merchant product id |
| Ucp.OrderWellFormed | packages/shared/src/types/index.ts:31-41 | the `ucp_order_xxx` id form: an order is well-formed iff its merchant's order namespace can be stripped from its id, leaving the recorded merchant order id when there is one; this second part is the model's reading of lines 31 and 41, which the source does not state |
| Ucp.ProductIdRoutes | packages/shared/src/types/index.ts:2-15 | a well-formed product whose merchant has no `_` has an id that reads back to its merchant and merchant product id |
| Ucp.ProductIdDeterminesOrigin | packages/shared/src/types/index.ts:2-15 | among well-formed products with `_`-free merchants, equal ids iff equal merchant and merchant product id |
| Ucp.OrderIdRoutes | packages/shared/src/types/index.ts:30-45 | a well-formed order whose merchant has no `_` has an id that reads back to its merchant, and to its merchant order id when that is recorded |
| Ucp.ProductAndOrderNeverShareId | packages/shared/src/types/index.ts:1-45 | a well-formed product and a well-formed order never have the same id |
| Adapters.BaseAdapter.GenerateProductId | packages/gateway/src/adapters/base.ts:34-45 | the id has the product prefix and embeds the adapter's own merchant name followed by the merchant product id, which reads back; the name reads back too when it has no `_` |
| Adapters.BaseAdapter.GenerateOrderId | packages/gateway/src/adapters/base.ts:34-52 | the id has the order prefix and embeds the adapter's own merchant name followed by the merchant order id, which reads back; the name reads back too when it has no `_` |
| Adapters.Operations | packages/gateway/src/adapters/base.ts:7-27 | every adapter offers search, create-order and get-order; it offers tracking iff its flag says so; it offers nothing else |
| Adapters.FromBase | packages/gateway/src/adapters/base.ts:33-72 | an adapter that adds nothing to the base keeps the given merchant name and offers exactly the three mandatory operations, without tracking |
| Adapters.IssueAnswers | packages/gateway/src/adapters/base.ts:34-52 | an id the adapter generates carries the requested merchant-side id under the adapter's name, and names that merchant when the name has no `_` |
| Adapters.IssueInjective | packages/gateway/src/adapters/base.ts:43-52 | one adapter, whatever its name, gives two requests the same id iff they are the same request |
| Adapters.DistinctMerchantsNeverShareIds | packages/gateway/src/adapters/base.ts:34-52 | two adapters with different `_`-free names never generate the same id |
| Adapters.IssueAll | packages/gateway/src/adapters/base.ts:34-52 | over a run of generations by one adapter, every id embeds the adapter's name and the requested merchant-side id, names the adapter when the name has no `_`, and distinct requests get distinct ids |

## Left out

- `toCents` / `toDollars` (base.ts:57-66): IEEE floating-point multiplication, division and `Math.round`; the model keeps money in integer cents only.
- packages/gateway/src/index.ts: Express setup, CORS, environment loading, logging and the 404/500 handlers are transport plumbing; only the `ErrorResponse` shape they emit is modelled.
- The bodies and `Promise` results of `searchProducts`, `createOrder`, `getOrder` and `trackOrder`: they are abstract in the code. `Partial<UCPOrder>` is not modelled, since only `createOrder` uses it.
- Routing by id prefix (with `MalformedId` / `UnknownMerchant` errors), fan-out search with partial failures, query and order validation, the order-status transition graph, status mapping from merchant vocabularies, totals reconciliation and result sorting: the gateway is meant to have them, but no code implements them, so the model does not invent them. `Ids.ParseId` is only the reading under which the id properties are stated.
- `createdAt` / `updatedAt` are opaque `Timestamp` values and `rating` is an uninterpreted `real`: no code compares or computes with them.
- `SearchResponse.count` is not related to `results`: the code states no relation.
- Numeric fields are unbounded integers: the cent amounts, and also `quantity`, `reviewCount`, `limit` and `count` (index.ts:14,26,50,87), which are JavaScript `number`s. Floating-point values and precision limits are not modelled.
- Strings are sequences of characters, not of JavaScript's UTF-16 code units. So positions such as index 10+|merchant| count characters, not `.length` units. No proved property depends on this, because `_` is a single code unit.
- Adapters.BaseAdapter: `merchantName` is `protected` and not `readonly` (base.ts:34), so a subclass could reassign it, and later ids would then carry the new name. That reassignment is not modelled; the adapter is an immutable value. The base's own methods (base.ts:36-52) never assign it after the constructor.
- Adapters.Adapter: only adapters that extend `BaseAdapter` are modelled. A `UCPMerchant` implemented without the base (base.ts:7-27, 31) has no shared id generators to reason about.
