/**
 * The WooCommerce side of `update_woocommerce_stock`: the body of the PUT
 * request and how its reply decides the Boolean the method returns. The
 * request itself is an oracle `put` from a product id and a payload to a
 * `PutReply`.
 */
module WooCommerce {
  import PyInt

  datatype StockStatus = InStock | OutOfStock {
    /** The value sent in the `stock_status` field. */
    function Wire(): (s: string)
      ensures s == "instock" || s == "outofstock"
      ensures s == "instock" <==> this == InStock
    {
      match this
      case InStock => "instock"
      case OutOfStock => "outofstock"
    }
  }

  /** The JSON body `{stock_quantity, manage_stock, stock_status}`. */
  datatype Payload = Payload(stockQuantity: int, manageStock: bool, stockStatus: StockStatus)

  /** The body for a quantity: the quantity truncated toward zero, stock
      management switched on, and "in stock" exactly when the quantity
      itself, not its truncation, is above zero. */
  function BuildPayload(qty: real): (p: Payload)
    ensures p.stockQuantity == PyInt.Trunc(qty)
    ensures p.manageStock
    ensures p.stockStatus == InStock <==> qty > 0.0
  {
    Payload(PyInt.Trunc(qty), true, if qty > 0.0 then InStock else OutOfStock)
  }

  /** What `requests.put` comes back with: a response and its status, or
      an exception raised before any response (timeout, DNS, connection). */
  datatype PutReply = Response(statusCode: int) | TransportFailure

  /** The four outcomes the method tells apart in its log. */
  datatype Outcome = Success | NotFound | HttpError(status: int) | TransportError

  /** `raise_for_status` raises for a client error (4xx) or a server error
      (5xx); every other status passes. */
  predicate IsErrorStatus(status: int) {
    400 <= status < 600
  }

  function Classify(reply: PutReply): (o: Outcome)
    ensures o.Success? <==> reply.Response? && !IsErrorStatus(reply.statusCode)
    ensures o.NotFound? <==> reply == Response(404)
    ensures o.HttpError? <==> reply.Response? && IsErrorStatus(reply.statusCode) && reply.statusCode != 404
    ensures o.HttpError? ==> o.status == reply.statusCode
    ensures o.TransportError? <==> reply.TransportFailure?
  {
    match reply
    case TransportFailure => TransportError
    case Response(status) =>
      if !IsErrorStatus(status) then Success
      else if status == 404 then NotFound
      else HttpError(status)
  }

  /** `update_woocommerce_stock`: one PUT of the payload for `qty`, and
      `true` only when it completed without an error status. */
  function UpdateWooCommerceStock(put: (int, Payload) -> PutReply, productId: int, qty: real): (ok: bool)
    ensures ok <==> put(productId, BuildPayload(qty)).Response? && !IsErrorStatus(put(productId, BuildPayload(qty)).statusCode)
  {
    Classify(put(productId, BuildPayload(qty))).Success?
  }

  /** A 404, any other error status and a transport failure all make the
      update report `false`; every other status makes it report `true`. */
  lemma UpdateSucceedsIff(put: (int, Payload) -> PutReply, productId: int, qty: real)
    ensures var reply := put(productId, BuildPayload(qty));
            reply.Response? && 200 <= reply.statusCode < 300 ==> UpdateWooCommerceStock(put, productId, qty)
    ensures put(productId, BuildPayload(qty)).Response? ==>
              (UpdateWooCommerceStock(put, productId, qty) <==> !IsErrorStatus(put(productId, BuildPayload(qty)).statusCode))
    ensures put(productId, BuildPayload(qty)) == Response(404) ==> !UpdateWooCommerceStock(put, productId, qty)
    ensures put(productId, BuildPayload(qty)) == TransportFailure ==> !UpdateWooCommerceStock(put, productId, qty)
  {
  }

  /** The stock flag follows the untruncated quantity: a positive truncated
      quantity implies "in stock", but a quantity strictly between 0 and 1
      is "in stock" with a stock quantity of 0. */
  lemma StockStatusFollowsQuantity(qty: real)
    ensures BuildPayload(qty).stockQuantity > 0 ==> BuildPayload(qty).stockStatus == InStock
    ensures BuildPayload(qty).stockStatus == InStock && BuildPayload(qty).stockQuantity == 0 <==> 0.0 < qty < 1.0
    ensures BuildPayload(qty).stockStatus == OutOfStock ==> BuildPayload(qty).stockQuantity <= 0
  {
  }

  lemma PayloadExamples()
    ensures BuildPayload(0.0) == Payload(0, true, OutOfStock)
    ensures BuildPayload(-1.0) == Payload(-1, true, OutOfStock)
    ensures BuildPayload(5.0) == Payload(5, true, InStock)
    ensures BuildPayload(0.5) == Payload(0, true, InStock)
    ensures BuildPayload(12.9) == Payload(12, true, InStock)
    ensures BuildPayload(-2.5) == Payload(-2, true, OutOfStock)
    ensures BuildPayload(0.5).stockStatus.Wire() == "instock" && BuildPayload(0.0).stockStatus.Wire() == "outofstock"
  {
  }
}
