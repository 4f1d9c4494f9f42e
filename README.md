# Storefront checkout and account flows, modelled in Dafny

This project models the server side of a supplements storefront written for
Next.js with Prisma. The model covers:

- **Checkout.** `POST /api/checkout` has two gates on the caller (signed in;
  verified e-mail or admin) and two request checks (a non-empty cart; a
  customer name and e-mail). Then one atomic unit of work reads the
  referenced products and validates every line in request order. It totals
  the cart as a left fold, records a `completed` order whose lines carry the
  prices read, and decrements stock once per line. After commit, a receipt
  goes to the mail service, and the handler never looks at the result.
- **Account flows.** Registration, sending and checking the e-mail
  verification code, forgot-password, checking a reset code, and resetting
  the password. Codes are six digits and expire after 15 minutes.
- **E-mail domain rule.** `isValidEmailDomain` and `getEmailDomainError`,
  including the format regular expression.
- **Product admin handlers.** Lookup, creation, partial update and soft
  delete, in the products `restore` route.
- **Sign-in and sessions.** The credentials check, plus the `jwt` and
  `session` callbacks that carry `id`, `isAdmin` and `emailVerified`.
- **Admin middleware.** The `/admin` authorization callback, the redirect
  rule and the matcher.

How the model represents state:

- Tables that handlers update in place are classes with `map` fields.
  `Accounts.UserTable` has users plus the unique e-mail index.
  `Catalog.ProductTable` has the products. `Checkout.Store` holds the order
  list and the product table.
- Handlers that write are methods; their `ensures` clauses state the reply
  and the whole new state. Read-only handlers (the product GET and the
  reset-code check) are functions.
- Pure logic is made of functions and lemmas.
- The account and checkout handlers answer with a `Common.Reply`, which
  carries the status and the exact error text of the source. The product
  handlers answer with `Catalog.Listing` (GET) and `Catalog.AdminReply`
  (POST, PUT, DELETE).
- Prices are integer cents (`nat`). Stock and quantities are `int`.

Inputs that come from outside the code become parameters:

- `now` stands for `Date.now()` and `new Date()`.
- `draw` stands for the random part of the code generator.
- `hash` and `matches` stand for bcrypt.
- `delivered` is whether the mail send call returned without throwing.
  The handlers never read what the send returns.
- `newId` and `orderId` are the ids the database assigns.

Some behaviour of the code is kept as written, with lemmas that show it:

- **Duplicate lines can overdraw stock.** Each checkout line is compared
  with the stock read before any decrement. Two lines naming the same
  product can therefore both pass and drive its stock negative
  (`Checkout.DuplicateLinesOverdraw`).
- **Quantity signs are not checked.** A negative quantity passes
  validation, raises the stock and lowers the total
  (`Checkout.NegativeQuantityAccepted`).
- **No product on two lines means stock stays non-negative.** If every
  stock was non-negative before the checkout and no product is named on two
  lines, a successful checkout leaves no stock negative, whatever the signs
  of the quantities (`Checkout.StockStaysNonNegative`).
- **Archived products can still be bought.** The checkout never reads the
  `isActive` flag: archiving a product changes neither validation, nor its
  messages, nor the total, nor the decrements (`Checkout.ArchivedStillSold`).
- **`.org` addresses are not accepted.** The comment in the e-mail rule
  announces them (lib/email-validation.ts:30), but the code has no `.org`
  suffix and no whitelisted domain ends in ".org". The model follows the
  code: `EmailValidation.OrgNeverAccepted` and
  `EmailValidation.OrgAddressRejected`.

Four more facts about the checkout code shape the model:

- **No sign check.** The code never checks that a quantity is positive, and
  nothing in it keeps stock non-negative (see above).
- **Line by line.** Existence and stock are checked line by line in request
  order, the existence test and the stock test interleaved, so the first
  failing line decides the error.
- **Unconditional decrement.** The decrement does not re-check
  `stock >= quantity`.
- **Line errors answer 500.** A missing product and insufficient stock are
  thrown inside the transaction and answered with status 500 and the thrown
  message.

## Model

| member | source | states |
|---|---|---|
| Numerals.GenerateCode | app/api/auth/send-verification/route.ts:11-13 | the code for draw d in [0, 900000) is six decimal digits with no leading zero, and it reads back as 100000 + d |
| Numerals.GenerateCodeInjective | app/api/auth/forgot-password/route.ts:10-12 | distinct draws give distinct codes |
| Numerals.ParseDecimalRoundTrip | app/api/checkout/route.ts:59 | the decimal numeral of a stock count in the error message is all digits and reads back as that count |
| Numerals.DecimalDigits | app/api/checkout/route.ts:59 | a numeral is non-empty, all digits, and has no leading zero unless it is "0" |
| EmailValidation.ToLower | lib/email-validation.ts:27 | lower-casing keeps the length and maps every character through the case map |
| EmailValidation.ToLowerIdempotent | lib/email-validation.ts:27 | lower-casing twice is lower-casing once |
| EmailValidation.DomainPart | lib/email-validation.ts:27 | the domain part taken from an address with '@' contains no '@' |
| EmailValidation.DomainPartOf | lib/email-validation.ts:27 | for local '@' domain rest, with rest empty or starting at the next '@', the domain part is exactly domain |
| EmailValidation.IsValidEmailDomainSpec | lib/email-validation.ts:24-41 | an address is valid iff its lower-cased domain part is non-empty and either ends in an institutional suffix or is whitelisted |
| EmailValidation.NoAtRejected | lib/email-validation.ts:25 | an address without '@', the empty one included, is never valid |
| EmailValidation.DomainCaseIrrelevant | lib/email-validation.ts:27 | two addresses whose domains differ only in case get the same verdict |
| EmailValidation.InstitutionalAccepted | lib/email-validation.ts:31-37 | a domain ending in .edu, .gov, .edu.ve, .edu.co or .edu.mx is accepted whatever the whitelist says |
| EmailValidation.OrgIsNotInstitutional | lib/email-validation.ts:30-37 | a domain ending in .org matches none of the institutional suffixes |
| EmailValidation.WhitelistFinal | lib/email-validation.ts:2-22 | no whitelisted domain ends in 'g' |
| EmailValidation.OrgNeverAccepted | lib/email-validation.ts:30-40 | a domain ending in .org is never accepted: not institutional, and no whitelist entry ends so |
| EmailValidation.OrgAddressRejected | lib/email-validation.ts:24-41 | every address whose lower-cased domain part ends in .org is refused, despite the comment announcing .org |
| EmailValidation.ShapeMatchesPattern | lib/email-validation.ts:46 | the executable format check holds iff the string matches the regular expression (non-empty runs of non-space, non-'@' characters around '@' and a later '.') |
| EmailValidation.ShapedDomain | lib/email-validation.ts:46 | a well-formed address has one '@', and its domain part is everything after it |
| EmailValidation.WellFormedVerdict | lib/email-validation.ts:24-56 | for a well-formed address, the domain verdict is the verdict on the lower-cased text after its '@' |
| EmailValidation.GetEmailDomainError | lib/email-validation.ts:43-56 | an empty address gets no message; a malformed one gets the format message; a well-formed one with a refused domain gets the domain message; a non-empty address gets no message iff it is well formed and its domain is valid; no other message exists |
| Accounts.UserTable.FindByEmail | app/api/auth/register/route.ts:32-34 | lookup by exact e-mail finds a user iff the unique index has the e-mail, and the user found has that e-mail and is the stored row |
| Accounts.UserTable.Register | app/api/auth/register/route.ts:6-65 | the checks run in order (all fields, password length 6, domain, e-mail free), each with its status and message; a refusal changes nothing; success inserts one unverified, non-admin user with the hashed password and keeps the index consistent |
| Accounts.UserTable.SendVerification | app/api/auth/send-verification/route.ts:15-66 | 401 without a session, 404 for an unknown user, 400 if already verified; otherwise a six-digit code expiring 15 minutes later is stored and mailed to the user, and a send call that throws answers 500 with the code still stored |
| Accounts.UserTable.VerifyEmail | app/api/auth/verify-email/route.ts:6-67 | the checks run in order (session, code length 6, user, already verified, active code, expiry, equality); success iff the stored code is present, unexpired and equal; success marks the user verified and clears the code, and a refusal changes nothing |
| Accounts.UserTable.ForgotPassword | app/api/auth/forgot-password/route.ts:14-65 | e-mail required, then domain check; an unknown address gets the same success as a known one and changes nothing; a known one gets a fresh reset code expiring 15 minutes later, mailed to it |
| Accounts.UserTable.VerifyResetCode | app/api/auth/verify-reset-code/route.ts:4-38 | read-only; the checks run in order: both fields ('Incomplete data'), a known user with a reset code and an expiry ('Invalid or expired code'), not expired (expired message), equal codes ('Incorrect code'); all refusals are 400; success iff the stored code is present, unexpired and equal |
| Accounts.UserTable.ResetPassword | app/api/auth/reset-password/route.ts:5-60 | success iff all fields are given, the new password has at least 6 characters and the reset code checks; success stores the hash and clears the code, so no code verifies afterwards; a refusal changes nothing |
| Accounts.SendThenVerify | app/api/auth/verify-email/route.ts:40-60 | a code sent and entered within 15 minutes verifies the user; the same request again is refused as already verified |
| Accounts.SendThenVerifyLate | app/api/auth/verify-email/route.ts:40-45 | the same code entered one millisecond after 15 minutes is refused as expired, and the user stays unverified |
| Accounts.RecoverPassword | app/api/auth/reset-password/route.ts:40-55 | a mailed reset code is accepted by the check and then by the reset, which stores the new hash; replaying the reset is refused |
| Catalog.PatchedFields | app/api/products/restore/route.ts:87-99 | a partial update keeps id and active flag; name, description, category and image take the supplied value when truthy and keep the old one otherwise; price, stock and featured take any supplied value |
| Catalog.PatchIdempotent | app/api/products/restore/route.ts:87-99 | applying the same update twice equals applying it once |
| Catalog.EmptyPatchKeeps | app/api/products/restore/route.ts:87-99 | an update supplying no field leaves the product unchanged |
| Catalog.ProductTable.Get | app/api/products/restore/route.ts:5-37 | with an id: that product, or 404 when absent; without one: the whole table |
| Catalog.ProductTable.Create | app/api/products/restore/route.ts:40-72 | refused with 400 iff a required field is missing (0 is accepted for price and stock), changing nothing; otherwise always saved: 201 with an active product, featured only for an explicit true, added under its new id |
| Catalog.ProductTable.Update | app/api/products/restore/route.ts:75-108 | 400 without an id, 500 for an unknown id, each changing nothing; a known id is always saved: 200 with the patched product replacing the row; keys never change and no product is reactivated |
| Catalog.ProductTable.Archive | app/api/products/restore/route.ts:111-137 | 400 without an id, 500 for an unknown id; otherwise the row stays and only its active flag is cleared |
| Catalog.ArchiveTwice | app/api/products/restore/route.ts:124-129 | archiving twice succeeds both times and leaves the table as one archive does |
| Checkout.FirstRejectedLine | app/api/checkout/route.ts:55-61 | returns no index iff every line names a product read with stock not below its quantity; otherwise it returns the first failing line in request order |
| Checkout.TotalIsExtensionSum | app/api/checkout/route.ts:63-81 | the reduce total over request lines equals the sum of price × quantity over the stored order lines |
| Checkout.PlacedOrder | app/api/checkout/route.ts:68-87 | the recorded order is completed and belongs to the session user; its total is the sum of its line extensions, and line i carries line i's product and quantity and the price read |
| Checkout.QuantityOfDistinct | app/api/checkout/route.ts:90-97 | with no product on two lines, a product's total decrement is its line's quantity, or 0 when no line names it |
| Checkout.StockStaysNonNegative | app/api/checkout/route.ts:55-97 | with no product on two lines, validated lines never drive a non-negative stock below zero |
| Checkout.DuplicateLinesOverdraw | app/api/checkout/route.ts:55-61 | two lines of 3 for a product with stock 5 both pass, and the stock ends at -1 |
| Checkout.NegativeQuantityAccepted | app/api/checkout/route.ts:58-66 | a negative quantity passes validation, raises the stock and makes the total negative |
| Checkout.TotalReadsPriceOnly | app/api/checkout/route.ts:64-66 | the total depends only on the prices of the products named |
| Checkout.ArchivedStillSold | app/api/checkout/route.ts:49-97 | archiving a product changes neither line validation, nor the line error messages, nor the total, nor any decremented stock |
| Checkout.DecrementStock | app/api/checkout/route.ts:89-97 | each product's stock drops by the total quantity of the lines naming it; unnamed products and all other fields are unchanged |
| Checkout.ReceiptFor | app/api/checkout/route.ts:102-114 | the receipt has one line per order line |
| Checkout.Store.Checkout | app/api/checkout/route.ts:12-124 | gates in order: 401, 403 (from the stored user), 400 for an empty cart, 400 for a missing name or e-mail; then success iff every line passes; otherwise 500 with the first failing line's message; a failure writes nothing; success appends the placed order, decrements stock and answers 200 with the order id whatever becomes of the receipt; the store invariant (totals equal line sums, distinct ids) is kept |
| Checkout.ConsecutiveCheckouts | app/api/checkout/route.ts:55-99 | buying 3 of a product with stock 5 at 1000 cents records a total of 3000 and leaves 2; buying 3 again is refused with "Available: 2" |
| Session.Authorize | lib/auth.ts:16-37 | missing credentials are refused first; with both given, every refusal is 'Invalid credentials'; sign-in succeeds iff the e-mail is found and the password matches its hash, and then returns the stored id, e-mail, name, admin and verified flags |
| Session.NoAccountEnumeration | lib/auth.ts:21-28 | an unknown e-mail and a known one with a wrong password get the identical refusal |
| Session.Token.Jwt | lib/auth.ts:41-52 | on sign-in the three claims come from the user; an update with a defined verified flag overwrites that claim alone; otherwise the token is unchanged |
| Session.SessionView.Populate | lib/auth.ts:53-60 | with a token, the session receives its id, admin and verified claims |
| Session.RefreshAfterVerification | lib/auth.ts:41-59 | after sign-in and a verified refresh, the session is verified and keeps the user's id and admin flag |
| Middleware.Authorized | middleware.ts:18-24 | only requests with a token are authorized; an admin route is authorized iff the token's admin claim is true, any other route iff a token exists |
| Middleware.MatchedIsAdminRoute | middleware.ts:7-33 | every path the matcher covers is an admin route to the callbacks |
| Middleware.Handle | middleware.ts:4-33 | unmatched paths pass; a matched path passes iff the admin claim is true, and otherwise goes to the sign-in page; the redirect home is never taken |
| Middleware.SignedInVisit | middleware.ts:4-33 | after sign-in the token carries the user's three claims, and on a matched path an admin passes while anyone else goes to sign-in |
| Middleware.PrefixWithoutSlashUnprotected | middleware.ts:7-33 | /administrator is an admin route by prefix, yet the matcher does not cover it, so it passes unchecked |

## Left out

- The React pages, components and e-mail templates, the image upload
  route, the seed script and the configuration files are not part of this
  model. Neither is the Prisma query building of the listing pages.
- Concurrency and transaction isolation are not modelled. Each checkout
  and each handler is one atomic step.
- Delivery of the receipt is not modelled. The handler never awaits it, so
  it is outside the reply. The receipt's `toLocaleDateString` date and its
  `toFixed(2)` amounts are formatting left out; `orderDate` stays the
  creation time.
- Generic catch paths are left out. These are the 500 replies for database
  or hashing exceptions ('Error processing the order', 'Error verifying
  email' and the like). The model's stores do not fail. The catch paths
  that the code reaches through its own logic are modelled: a thrown
  checkout line error, an update of a missing product, and a mail send
  call that throws.
- Mail sending in the account flows is reduced to the address, the code
  and whether the send call returned without throwing. The HTML and the
  subject lines are left out.
- `EmailValidation.ToLower`: only ASCII letters are case-mapped, because
  JavaScript's full Unicode `toLowerCase` is not modelled.
- String lengths are counted in characters, not UTF-16 code units. The two
  agree on the Basic Multilingual Plane.
- The newest-first order of the product listing comes from the database and
  is not modelled: `Catalog.ProductTable.Get` returns the table as a map.
- `parseFloat`/`parseInt` of the product form fields are taken as already
  done. NaN and non-numeric input are not represented, and neither are
  negative or fractional prices, since prices are `nat` cents.
- `Session.Token.Jwt`: an update carrying `emailVerified: null` would store
  null in the token. The model's refresh value is a boolean or absent.
- Next-Auth's own token fields (`sub`, `name`, `email`, expiry) are not
  modelled. The `callbackUrl` that the sign-in redirect carries is not
  modelled either.
- `Checkout.ReceiptFor` states only the receipt's length. Its lines come
  straight from the order lines and the product names read.
