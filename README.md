# Account verification and order mail, modelled in Dafny

This project models the core of a small e-commerce backend written for
Express: the account workflow of `controllers/userController.js` and the
request rules and order-confirmation handler of `routes/userRoutes.js`.

An account moves from absent, to stored but unverified (`signup`), to verified
(`verifyEmail`). Only a verified account whose password matches can log in
(`login`). Signup stores the account and then mails a link that carries a
one-hour token over the account's name and email. Redeeming that token before
it expires marks the account verified. Login answers with a one-day token over
the account id and the account's public fields.

The order-confirmation endpoint checks its request. It then mails the buyer a
confirmation and mails the seller a notice that embeds it. The two sends are
sequential and not atomic.

Modules, one per component:

- `Wrappers` (wrappers.dfy): `Option`.
- `Hashing` (hashing.dfy): symbolic bcrypt digests. `Hash` makes a digest from
  a password and a salt. `Matches` checks a password against a digest.
- `Tokens` (tokens.dfy): JWT claims, issue and expiry times, and a flag for
  whether the signature checks. `Sign` issues a token. `Decode` is
  `jwt.verify` at a given time: it returns `Ok(claims)`, `Expired` or
  `Invalid`.
- `Http` (http.dfy): status codes and response bodies.
- `Mailer` (mailer.dfy): the transport. Its outbox holds the delivered mail.
  Each send is given the failure, if any, that the transport reports.
- `Validation` (validation.dfy): the express-validator rules for signup and
  for order requests, over abstract checks (`isEmail`, `isFloat({ min: 0 })`,
  `normalizeEmail`, `trim().escape()`).
- `UserController` (user_controller.dfy): the store (`State`, keyed by email)
  and one specification function per handler. `SignupSpec`,
  `VerifyEmailSpec` and `LoginSpec` give the response, the new store and the
  mail sent. The class `Controller` holds the store and the transport and runs
  the same steps in place. Each of its methods is proved to agree with its
  function.
- `AccountLifecycle` (account_lifecycle.dfy): the same handlers over whole
  sequences of requests. No account is ever deleted. No account changes
  anything but `isVerified`. Verification is never undone. From an empty
  store, a successful login needs an earlier signup with that password,
  followed by a request that redeemed a token for that email.
- `OrderConfirmation` (order_confirmation.dfy): rendering of the two mails
  and the `/send-order-confirmation` handler.

Times are whole seconds, as in a JWT's `iat` and `exp`. A token counts as
expired from the second its `exp` is reached, because jsonwebtoken compares
`now >= exp`.

## Model

| member | source | states |
|---|---|---|
| `Hashing.Hash` | controllers/userController.js:33-34 | the stored digest uses cost factor 10 and matches the password it was made from |
| `Hashing.MatchesHash` | controllers/userController.js:100 | checking a password against a digest succeeds exactly when it is the password the digest was made from, whatever the salt |
| `Tokens.Sign` | controllers/userController.js:41 | a signed token carries exactly the given claims, is authentic, and its expiry is its issue time plus the lifetime |
| `Tokens.Decode` | controllers/userController.js:70 | decoding returns the token's own claims; a token with a bad signature is `Invalid` and nothing else is |
| `Tokens.DecodeSigned` | controllers/userController.js:82-85 | round trip: a token the service signed decodes to its claims while less than its lifetime has passed, and is `Expired` from then on |
| `Tokens.EmailClaim` | controllers/userController.js:71 | a decoded token has an email claim exactly when it is a verification token, and the claim is that token's email |
| `Validation.SignupErrors` | routes/userRoutes.js:28-30 | a signup passes exactly when name has 3 or more characters, email passes `isEmail` and password has 6 or more characters; each field is reported failing exactly when its own rule fails |
| `Validation.OrderErrors` | routes/userRoutes.js:43-47 | an order passes exactly when userEmail passes `isEmail`, userName and orderId are non-empty as sent, orderItems is an array with at least one entry and orderTotal passes `isFloat({ min: 0 })`; each field is reported failing exactly when its own rule fails |
| `UserController.NewAccount` | controllers/userController.js:37 | the account a signup stores has the request's name and email, the next id, a digest matching the password and `isVerified` false |
| `UserController.VerificationToken` | controllers/userController.js:41 | the signup token carries only `{name, email}`, decodes at issue time and is expired one hour later |
| `UserController.VerificationMail` | controllers/userController.js:44-50 | the mail goes to the new address and its link is `BASE_URL + "/api/user/verify/"` followed by the token |
| `UserController.SignupSpec` | controllers/userController.js:18-65 | answers 400 exactly when validation fails or the email is stored, and then changes nothing and sends nothing; otherwise stores exactly one new account under the email and leaves the others alone; answers 201 and sends the verification mail when the transport succeeds, and answers 500 with the account still stored when it fails |
| `UserController.VerifyEmailSpec` | controllers/userController.js:68-87 | answers 200 exactly when an in-time authentic verification token names a stored unverified account, and then sets only that account's `isVerified`; an expired token, a bad token, an unknown email and an already verified account each get their own 400 text and leave the store unchanged; never sends mail |
| `UserController.LoginSpec` | controllers/userController.js:91-109 | answers 200 exactly when the account exists, is verified and the password matches; an absent and an unverified account get the same message, a wrong password another; success carries a one-day token over `{id}` and only id, name and email |
| `UserController.SignupKeepsWf` | controllers/userController.js:27-38 | signup keeps every account under its own email with a distinct id |
| `UserController.VerifyEmailKeepsWf` | controllers/userController.js:76-77 | verification keeps the store well formed |
| `UserController.SignupVerifyLogin` | controllers/userController.js:33-108 | a fresh valid signup whose mail goes out answers 201; its mailed token redeemed within the hour verifies the account; login with the same password then succeeds; the same token presented again is refused as already verified |
| `UserController.VerificationLinkExpires` | controllers/userController.js:82-83 | a verification token presented one hour or more after issue gets the expired-link text and changes nothing, whatever the store holds |
| `UserController.Controller.Signup` | controllers/userController.js:18-65 | the in-place handler leaves the store, the answer and the delivered mail exactly as `SignupSpec` says, and keeps the store well formed |
| `UserController.Controller.VerifyEmail` | controllers/userController.js:68-87 | the in-place handler leaves the store and the answer exactly as `VerifyEmailSpec` says |
| `UserController.Controller.Login` | controllers/userController.js:91-115 | the handler answers as `LoginSpec` says on the current store and changes nothing |
| `Mailer.Mailer.Send` | controllers/userController.js:47-57 | a send reports the transport's failure, if any; the message joins the outbox exactly when the send succeeds |
| `AccountLifecycle.StepPersists` | controllers/userController.js:76-77 | one request never deletes an account, changes nothing of it but `isVerified`, and never unverifies it |
| `AccountLifecycle.RunKeepsWf` | controllers/userController.js:27-38 | any sequence of requests keeps every account under its own email with a distinct id |
| `AccountLifecycle.RunPersists` | controllers/userController.js:76-77 | any sequence of requests keeps every account, with the same id, name, email and digest; a verified account stays verified |
| `AccountLifecycle.AccountOrigin` | controllers/userController.js:33-38 | every account not there at the start was created by a signup of its email with a password its digest matches |
| `AccountLifecycle.StepVerification` | controllers/userController.js:71-77 | a single request that leaves an account verified which was not before is a redemption of an in-time token for its email, made while the account was stored unverified |
| `AccountLifecycle.VerificationOrigin` | controllers/userController.js:70-77 | every account verified during a sequence was verified by a request redeeming an in-time token for its email while the account was stored unverified |
| `AccountLifecycle.LoginNeedsSignupThenVerification` | controllers/userController.js:95-101 | from an empty store, a successful login names an email that was signed up with that very password and later verified by a redeeming request |
| `OrderConfirmation.SellerAddress` | routes/userRoutes.js:61 | the seller address is the one in the request, or "anassheik890@gmail.com" when the request has none |
| `OrderConfirmation.ItemsHtmlAppend` | routes/userRoutes.js:78-80 | rendering a list made of two parts renders each part and joins them |
| `OrderConfirmation.ItemsHtmlAt` | routes/userRoutes.js:78-80 | each order item gets exactly its own entry, after the entries of the items before it and before those of the items after it |
| `OrderConfirmation.BuyerHtmlListsItems` | routes/userRoutes.js:65-83 | the item entries appear in the buyer's confirmation right after the order summary |
| `OrderConfirmation.SellerHtmlEmbedsBuyerHtml` | routes/userRoutes.js:99-105 | the seller's notice contains the buyer's confirmation whole, right after its introduction |
| `OrderConfirmation.BuyerMail` | routes/userRoutes.js:87-92 | the buyer mail goes to the normalized userEmail with subject "Order Confirmation #" followed by the orderId, and its body is the buyer confirmation rendered from the orderId, the trimmed and escaped userName, the date, the orderTotal and the request's items in order (so `ItemsHtmlAt` and `BuyerHtmlListsItems` apply to the mail sent) |
| `OrderConfirmation.SellerMail` | routes/userRoutes.js:95-106 | the seller mail goes to the seller address with subject "New Order Received #" followed by the orderId, and its body embeds the buyer mail's body |
| `OrderConfirmation.SendOrderConfirmation` | routes/userRoutes.js:49-116 | an invalid request answers 400 with the failing fields and sends nothing; otherwise the buyer mail is sent first; a buyer failure answers 500 and the seller send is never tried; a seller failure answers 500 with the buyer mail already delivered; 200 `{success: true}` exactly when both sends succeed |

## Left out

- Express wiring, CORS, the MongoDB connection and `listen` in server.js: plumbing with no logic.
- Rate limiting (server.js:15-21, routes/userRoutes.js:18-22): an external, time-windowed per-address policy. A request the limiter refuses never reaches the handlers modelled here.
- Cryptography: bcrypt's salt generation and hashing, and JWT signing and signature checking. A digest is symbolic and the salt is an input. A token's signature is a flag saying whether it checks against the secret.
- Hashing.MatchesHash: bcrypt compares only the first 72 bytes of a password; the model compares passwords whole.
- Token text: the compact JWT string is not modelled. A verification link is the prefix `BASE_URL + "/api/user/verify/"` paired with the token value.
- Account ids: MongoDB assigns an `ObjectId`; the model hands out ids from a counter, which only keeps them distinct.
- The user schema (models/User) is not part of this model. The model assumes it defaults `isVerified` to `false` and stores name, email and the digest as given.
- A decoded token with no email claim (a login token) is taken to find no account, so it gets "Invalid token". This is what a MongoDB query on an undefined email returns when no stored account lacks an email.
- Failures of the store, of bcrypt and of jwt (a rejected `findOne` or `save`): the store is in memory and total. So the model has no 500 "Login failed" answer (controllers/userController.js:110-113). It also has no signup 500 other than a mail failure, and no verify failure other than the token's own.
- Request values that are not strings, and absent fields: every field is a string. For the fields the express-validator rules check, an absent value behaves like the empty string and is rejected, so signup and the order rules are covered. Two cases where absence differs are not modelled: `/login` has no rules, and an absent password makes `bcrypt.compare` reject, which the service answers with 500 "Login failed" (controllers/userController.js:100, 110-113), while the model only knows string passwords; and an order item without `name`, `quantity` or `price` prints "undefined" in the template (routes/userRoutes.js:79). `orderItems` is either an array or not one. `orderTotal` is the value as sent and is judged only by the abstract `isFloat({ min: 0 })` check.
- Validation.SignupErrors: `isLength({ min: n })` is modelled as the code-point count `|s|`; recent validator releases also leave out the variation selectors U+FE0E and U+FE0F when counting, which the model does not.
- express-validator internals: `isEmail`, `isFloat`, `normalizeEmail` and `trim().escape()` are inputs to the model. The field errors are reduced to the field names.
- Mail `from` headers (environment variables) and the HTML's inline styles and indentation are presentation only. The order date comes from the server clock in the local format, so it is an input.
- Concurrency: requests are handled one at a time, so the race between the existence check and the insert of two simultaneous signups is not modelled.
- Console logging.
