/**
 * The request rules declared in routes/userRoutes.js with express-validator.
 *
 * The library's own checks and sanitizers (`isEmail`, `isFloat({ min: 0 })`,
 * `normalizeEmail`, `trim().escape()`) are inputs, gathered in `Checks`; the
 * model fixes which rule applies to which field and what a request must
 * satisfy to reach the handler. A failed rule is reported by the name of its
 * field, in the order the rules are declared.
 */
module Validation {

  import opened Wrappers

  datatype Checks = Checks(
    isEmail: string -> bool,
    isNonNegativeFloat: string -> bool,
    normalizeEmail: string -> string,
    trimEscape: string -> string)

  /** The body of `POST /signup`; an absent field reads as the empty string. */
  datatype SignupRequest = SignupRequest(name: string, email: string, password: string)

  /** One entry of `orderItems`, each field as the template prints it. */
  datatype OrderItem = OrderItem(name: string, quantity: string, price: string)

  /**
   * The body of `POST /send-order-confirmation`. `orderItems` is `None` when
   * the request does not carry an array there; `orderTotal` is the value as
   * sent; `sellerEmail` is `None` when the request leaves it out.
   */
  datatype OrderRequest = OrderRequest(
    userEmail: string,
    userName: string,
    orderId: string,
    orderItems: Option<seq<OrderItem>>,
    orderTotal: string,
    sellerEmail: Option<string>)

  function FailsIf(failed: bool, field: string): (r: seq<string>)
  {
    if failed then [field] else []
  }

  /** `validationResult(req)` for the signup rules (`isLength({ min: 3 })`,
      `isEmail()`, `isLength({ min: 6 })`). */
  function SignupErrors(req: SignupRequest, checks: Checks): (fields: seq<string>)
    ensures fields == [] <==>
              |req.name| >= 3 && checks.isEmail(req.email) && |req.password| >= 6
    ensures "name" in fields <==> |req.name| < 3
    ensures "email" in fields <==> !checks.isEmail(req.email)
    ensures "password" in fields <==> |req.password| < 6
    ensures |fields| <= 3
  {
    FailsIf(|req.name| < 3, "name")
    + FailsIf(!checks.isEmail(req.email), "email")
    + FailsIf(|req.password| < 6, "password")
  }

  /** `validationResult(req)` for the order rules. `notEmpty` looks at the value
      as sent, before `trim()` runs, so a name of blanks passes. */
  function OrderErrors(req: OrderRequest, checks: Checks): (fields: seq<string>)
    ensures fields == [] <==>
              && checks.isEmail(req.userEmail)
              && req.userName != ""
              && req.orderId != ""
              && req.orderItems.Some? && |req.orderItems.value| >= 1
              && checks.isNonNegativeFloat(req.orderTotal)
    ensures "userEmail" in fields <==> !checks.isEmail(req.userEmail)
    ensures "userName" in fields <==> req.userName == ""
    ensures "orderId" in fields <==> req.orderId == ""
    ensures "orderItems" in fields <==> req.orderItems.None? || req.orderItems.value == []
    ensures "orderTotal" in fields <==> !checks.isNonNegativeFloat(req.orderTotal)
    ensures |fields| <= 5
  {
    FailsIf(!checks.isEmail(req.userEmail), "userEmail")
    + FailsIf(req.userName == "", "userName")
    + FailsIf(req.orderId == "", "orderId")
    + FailsIf(req.orderItems.None? || |req.orderItems.value| < 1, "orderItems")
    + FailsIf(!checks.isNonNegativeFloat(req.orderTotal), "orderTotal")
  }
}
