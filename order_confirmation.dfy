/**
 * The `POST /send-order-confirmation` handler of routes/userRoutes.js.
 *
 * After the request passes the order rules, the handler renders the buyer's
 * confirmation, sends it to the buyer, then sends the seller a notice that
 * embeds the buyer's confirmation. The two sends are not atomic: a failed
 * buyer send stops the handler before the seller send, and a failed seller
 * send leaves the buyer's mail delivered. Either failure answers 500.
 *
 * HTML is rendered without the template's inline styles and indentation, and
 * the date is an input (the service prints the server clock's local date).
 */
module OrderConfirmation {

  import opened Wrappers
  import opened Http
  import opened Mailer
  import opened Validation

  /** The `sellerEmail` used when the request carries none. */
  const DefaultSellerEmail := "anassheik890@gmail.com"

  function SellerAddress(req: OrderRequest): (to: string)
    ensures req.sellerEmail.None? ==> to == DefaultSellerEmail
    ensures req.sellerEmail.Some? ==> to == req.sellerEmail.value
  {
    match req.sellerEmail
    case None => DefaultSellerEmail
    case Some(address) => address
  }

  /** One `<li>` entry for an ordered item. Item fields are printed as sent. */
  function ItemLine(item: OrderItem): string
  {
    "<li>" + item.name + " - " + item.quantity + " × $" + item.price + "</li>"
  }

  /** `orderItems.map(item => ...).join('')`. */
  function ItemsHtml(items: seq<OrderItem>): string
  {
    if items == [] then "" else ItemLine(items[0]) + ItemsHtml(items[1..])
  }

  /** Rendering a list split in two renders each part and joins them. */
  lemma {:induction false} ItemsHtmlAppend(a: seq<OrderItem>, b: seq<OrderItem>)
    ensures ItemsHtml(a + b) == ItemsHtml(a) + ItemsHtml(b)
  {
    if a == [] {
      assert a + b == b;
    } else {
      assert (a + b)[1..] == a[1..] + b;
      ItemsHtmlAppend(a[1..], b);
    }
  }

  /** Every item gets exactly its own entry, preceded by the entries of the
      items before it and followed by those of the items after it. */
  lemma ItemsHtmlAt(items: seq<OrderItem>, i: nat)
    requires i < |items|
    ensures ItemsHtml(items) == ItemsHtml(items[..i]) + ItemLine(items[i]) + ItemsHtml(items[i + 1..])
  {
    var rest := items[i..];
    assert items == items[..i] + rest;
    ItemsHtmlAppend(items[..i], rest);
    assert rest[0] == items[i] && rest[1..] == items[i + 1..];
  }

  /** `inner` occurs in `outer` starting at position `at`. */
  predicate Embeds(outer: string, inner: string, at: nat)
  {
    at + |inner| <= |outer| && outer[at..at + |inner|] == inner
  }

  /** The buyer's confirmation. */
  function BuyerHtml(orderId: string, userName: string, date: string, total: string,
                     items: seq<OrderItem>): string
  {
    OrderSummaryHtml(orderId, userName, date, total) + ItemsHtml(items) + "</ul></div>"
  }

  /** Everything of the buyer's confirmation that precedes the item entries. */
  function OrderSummaryHtml(orderId: string, userName: string, date: string, total: string): string
  {
    "<div><h2>Order Confirmation #" + orderId + "</h2>"
    + "<p>Hello " + userName + ",</p>"
    + "<p>Thank you for your order! Here are your order details:</p>"
    + "<h3>Order Summary</h3>"
    + "<p><strong>Order ID:</strong> " + orderId + "</p>"
    + "<p><strong>Date:</strong> " + date + "</p>"
    + "<p><strong>Total:</strong> $" + total + "</p>"
    + "<h4>Items Ordered:</h4><ul>"
  }

  function SellerIntroHtml(userName: string, userEmail: string): string
  {
    "<div><h2>New Order Notification</h2>"
    + "<p>You have received a new order from " + userName + " (" + userEmail + ")</p>"
  }

  /** The seller's notice: an introduction naming the buyer, then the buyer's
      confirmation unchanged. */
  function SellerHtml(userName: string, userEmail: string, buyerHtml: string): string
  {
    SellerIntroHtml(userName, userEmail) + buyerHtml + "</div>"
  }

  /** The item entries appear in the buyer's confirmation right after the order summary. */
  lemma BuyerHtmlListsItems(orderId: string, userName: string, date: string, total: string,
                            items: seq<OrderItem>)
    ensures Embeds(BuyerHtml(orderId, userName, date, total, items), ItemsHtml(items),
                   |OrderSummaryHtml(orderId, userName, date, total)|)
  {
  }

  /** The seller's notice carries the buyer's confirmation whole, right after
      the introduction. */
  lemma SellerHtmlEmbedsBuyerHtml(userName: string, userEmail: string, buyerHtml: string)
    ensures Embeds(SellerHtml(userName, userEmail, buyerHtml), buyerHtml, |SellerIntroHtml(userName, userEmail)|)
  {
  }

  /** The buyer's mail, built from the request after sanitizing. */
  function BuyerMail(req: OrderRequest, checks: Checks, date: string): (m: Mail)
    requires req.orderItems.Some?
    ensures m.to == checks.normalizeEmail(req.userEmail)
    ensures m.subject == "Order Confirmation #" + req.orderId
    ensures m.content == Html(BuyerHtml(req.orderId, checks.trimEscape(req.userName), date,
                                        req.orderTotal, req.orderItems.value))
  {
    var html := BuyerHtml(req.orderId, checks.trimEscape(req.userName), date, req.orderTotal, req.orderItems.value);
    Mail(checks.normalizeEmail(req.userEmail), "Order Confirmation #" + req.orderId, Html(html))
  }

  /** The seller's mail: to `sellerEmail` or its default, embedding the buyer's mail body. */
  function SellerMail(req: OrderRequest, checks: Checks, date: string): (m: Mail)
    requires req.orderItems.Some?
    ensures m.to == SellerAddress(req)
    ensures m.subject == "New Order Received #" + req.orderId
    ensures m.content == Html(SellerHtml(checks.trimEscape(req.userName), checks.normalizeEmail(req.userEmail),
                                         BuyerMail(req, checks, date).content.html))
  {
    var buyer := BuyerMail(req, checks, date);
    var html := SellerHtml(checks.trimEscape(req.userName), checks.normalizeEmail(req.userEmail), buyer.content.html);
    Mail(SellerAddress(req), "New Order Received #" + req.orderId, Html(html))
  }

  /**
   * The handler. `date` is the day it runs; `buyerFault` and `sellerFault`
   * are what the transport does with each send. The validators have already
   * run and their sanitizers are applied here.
   */
  method SendOrderConfirmation(mailer: Mailer, req: OrderRequest, checks: Checks, date: string,
                               buyerFault: Option<string>, sellerFault: Option<string>)
    returns (response: Response)
    modifies mailer
    ensures response.status == 200 <==>
              OrderErrors(req, checks) == [] && buyerFault.None? && sellerFault.None?
    ensures OrderErrors(req, checks) != [] ==>
              && response == Response(400, FieldErrors(OrderErrors(req, checks)))
              && mailer.outbox == old(mailer.outbox)
    ensures OrderErrors(req, checks) == [] && buyerFault.Some? ==>
              && response == Response(500, Failure("Failed to send email", buyerFault.value))
              && mailer.outbox == old(mailer.outbox)
    ensures OrderErrors(req, checks) == [] && buyerFault.None? && sellerFault.Some? ==>
              && response == Response(500, Failure("Failed to send email", sellerFault.value))
              && mailer.outbox == old(mailer.outbox) + [BuyerMail(req, checks, date)]
    ensures OrderErrors(req, checks) == [] && buyerFault.None? && sellerFault.None? ==>
              && response == Response(200, Success)
              && mailer.outbox == old(mailer.outbox) + [BuyerMail(req, checks, date), SellerMail(req, checks, date)]
  {
    var errors := OrderErrors(req, checks);
    if errors != [] {
      return Response(400, FieldErrors(errors));
    }
    var buyer := BuyerMail(req, checks, date);
    var error := mailer.Send(buyer, buyerFault);
    if error.Some? {
      return Response(500, Failure("Failed to send email", error.value));
    }
    var seller := SellerMail(req, checks, date);
    error := mailer.Send(seller, sellerFault);
    if error.Some? {
      return Response(500, Failure("Failed to send email", error.value));
    }
    response := Response(200, Success);
  }
}
