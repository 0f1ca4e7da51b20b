/** The order payload of the Shopify Admin GraphQL API, and how the source reads
    a line item's display name and image and a reply's order. */
module Shopify {
  import opened Common

  datatype Product = Product(title: string, featuredImage: Option<string>)

  /** `image` is `variant.image.url`, absent when the variant has no image. */
  datatype Variant = Variant(title: string, image: Option<string>, product: Option<Product>)

  datatype LineItem = LineItem(quantity: int, variant: Option<Variant>)

  /** Whether a line item is kept by both `extractProducts`: it has a variant with a product. */
  predicate Kept(item: LineItem) {
    item.variant.Some? && item.variant.value.product.Some?
  }

  /** The nodes of `lineItems.edges`; `None` when the order carries no `lineItems`. */
  datatype Order = Order(lineItems: Option<seq<LineItem>>)

  datatype GraphQLReply = GraphQLReply(hasErrors: bool, order: Option<Order>)

  /** One POST to the GraphQL endpoint: the request threw, or an HTTP reply came
      back whose body is `None` when it is not valid JSON. */
  datatype ShopifyResponse = NetworkError | HttpReply(status: int, body: Option<GraphQLReply>)

  /** `response.ok`. */
  predicate IsOk(status: int) {
    200 <= status <= 299
  }

  const DefaultTitle: string := "Default Title"

  /** The global id the order is fetched by: the order id, trimmed. */
  function OrderGid(orderId: string): string {
    "gid://shopify/Order/" + Trim(orderId)
  }

  /** `variant.image?.url || product.featuredImage?.url || null`. */
  function ImageOf(v: Variant, p: Product): (r: Option<string>)
    ensures r.None? || Truthy(r)
    ensures Truthy(v.image) ==> r == v.image
    ensures !Truthy(v.image) ==> r == (if Truthy(p.featuredImage) then p.featuredImage else None)
  {
    if Truthy(v.image) then v.image else if Truthy(p.featuredImage) then p.featuredImage else None
  }

  /** The request handler's display name: the product title, followed by
      " - " and the variant title unless that is "Default Title". */
  function DisplayName(productTitle: string, variantTitle: string): string {
    if variantTitle != DefaultTitle then productTitle + " - " + variantTitle else productTitle
  }

  /** The offline script's stored variant title: empty for "Default Title". */
  function StoredVariantTitle(variantTitle: string): string {
    if variantTitle != DefaultTitle then variantTitle else ""
  }

  /** The offline scripts' display name: the title, followed by " - " and the
      variant title when that is not empty. */
  function FullName(title: string, variantTitle: string): string {
    if variantTitle != "" then title + " - " + variantTitle else title
  }

  /** The two naming schemes agree except on a variant whose title is empty,
      which the handler renders as "title - " and the scripts as "title". */
  lemma {:induction false} NamingSchemesAgree(title: string, variantTitle: string)
    ensures variantTitle != "" ==>
              FullName(title, StoredVariantTitle(variantTitle)) == DisplayName(title, variantTitle)
    ensures variantTitle == "" ==>
              FullName(title, StoredVariantTitle(variantTitle)) == title &&
              DisplayName(title, variantTitle) == title + " - "
  {
  }

  /** fetchOrderFromShopify in the request handler and the queue consumer: a
      thrown request, a non-2xx status or an unreadable body give no order;
      GraphQL `errors` are not looked at. */
  function HandlerOrder(r: ShopifyResponse): Option<Order> {
    match r
    case NetworkError => None
    case HttpReply(status, body) =>
      if !IsOk(status) then None
      else if body.None? then None
      else body.value.order
  }

  /** fetchOrder in the offline fetch script: as above, and a reply carrying
      GraphQL `errors` gives no order either. */
  function ScriptOrder(r: ShopifyResponse): Option<Order> {
    match r
    case NetworkError => None
    case HttpReply(status, body) =>
      if !IsOk(status) then None
      else if body.None? || body.value.hasErrors then None
      else body.value.order
  }

  /** Whenever the offline script accepts an order the handler reads the same
      order; a reply with GraphQL errors and partial data is where they part. */
  lemma {:induction false} ScriptOrderRefinesHandlerOrder(r: ShopifyResponse, o: Order)
    ensures ScriptOrder(r).Some? ==> HandlerOrder(r) == ScriptOrder(r)
    ensures HandlerOrder(HttpReply(200, Some(GraphQLReply(true, Some(o))))) == Some(o)
    ensures ScriptOrder(HttpReply(200, Some(GraphQLReply(true, Some(o))))) == None
  {
  }
}
