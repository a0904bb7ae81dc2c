# YelpCamp request logic, modelled in Dafny

YelpCamp is a campground-listing web application. Users register, pay a
one-time fee, create and edit campground listings, comment, and can recover
a forgotten password through an e-mailed, time-limited token. This project
models the request logic that decides something. The rest of the
application is routing glue over MongoDB and third-party services.

- **Authorization guards** (`middleware.dfy`, module `Middleware`). The
  guards `isLoggedIn`, `isPaid`, `checkCampgroundOwnership` and
  `checkCommentOwnership` are pure functions from the request's user and the
  database lookup to a `Response`. A response is either `Next` or a refusal
  with its flash message and its redirect.
- **Account state machine** (`accounts.dfy`, module `Accounts`). The class
  `AccountStore` holds the accounts as a sequence in insertion order, so an
  id is a position. It has one method per handler: `Register`, `Forgot`,
  `Reset` and `Pay`. Each method changes the account record step by step,
  as the handler does, and its contract ties the new store to a pure
  transition (`Issue`, `Consume`, `MarkPaid`). `findOne` is the recursive
  function `FindOne`, which returns the first matching account. The reset
  token is the hexadecimal encoding of 20 random bytes (`hex.dfy`, module
  `Hex`). Its expiry is `now + 3600000` ms. The token is accepted only
  while `expiry > now`, and a successful reset clears it.
- **Campground logic** (`campgrounds.dfy`, `escape.dfy`, `imagefilter.dfy`).
  `escapeRegex` is `RegexEscape.Escape`. The multer filter is
  `ImageFilter.Filter`. The CREATE and UPDATE handlers are methods of
  `CampgroundStore`. They are proved against the pure outcomes `Creation`
  and `Edit`, whose contracts say which fields change and under what
  condition. The index page's empty-search rule is `Index`.

Shared types are in `http.dfy` (module `Http`): `Option`, `Result`, flash
messages and `Response`.

Several inputs come from outside the model:

- Foreign services become parameters:
  - the payment processor: `PaymentIntent -> IntentResult`;
  - the geocoder: `string -> Result<seq<Place>>`;
  - the image host's upload and destroy calls.
- The clock (`now`, in milliseconds), the random bytes, the configured
  admin code, the mailer's error and the result of the hashing library's
  `setPassword` are plain arguments.

The hashing library's `setPassword` fails on an empty password, and its
result is ignored at routes/index.js:150. So `Reset` still clears the
token and signs the user in when that result is `None`.

Every `Response` value follows a real branch of the source:

- `Fail` is an error handed to Express's error handler. Examples are a
  rejected upload and a mail error on `/forgot`.
- `Crash` is an exception thrown inside an asynchronous callback. The one
  case is CREATE without a file: `req.file.path` is read at
  routes/campgrounds.js:92.
- `NoReply` is a branch that only logs. The one case is a failing index
  query.

In `Edit`, an empty geocoder answer makes `updatedLocation[0].latitude`
throw. The `try` at routes/campgrounds.js:165-173 catches that error and
stores its TypeError message as the flash text.

The handlers assign `email`, `isAdmin`, `isPaid` and the reset fields.
models/user.js:5-8 declares only `username` and `password`. Likewise,
CREATE builds and UPDATE assigns `imageID` (routes/campgrounds.js:91-100,
158), but models/campground.js:4-26 does not declare it. Under Mongoose's
default strict mode none of these undeclared fields would be stored, and
`cloudinary.v2.uploader.destroy(campground.imageID)` at
routes/campgrounds.js:155 and 189 would receive `undefined`. The model does what
the handlers intend: every assigned field is stored, so `Creation` and
`Edit` keep `imageID` and `Edit` hands the stored `imageID` to `destroy`.

The TypeError texts of `Crash` and of `Edit`'s caught error (`NoFile`,
`NoPlace`) are worded as Node.js before 16.9 words them.

Listings and comments are checked by one rule, `CheckOwnership`. As the
code has it, the two checks differ only in the not-found message:
"Campground not found" versus "Comment not found"
(middleware/index.js:27, 50).

## Model

| member | source | states |
|---|---|---|
| `Middleware.IsLoggedIn` | middleware/index.js:5-14 | The request goes on iff it is authenticated. Otherwise a JSON request gets `{error: 'Login required'}` and any other request gets the login warning and a redirect to `/login`. This is the corrected guard. |
| `Middleware.IsLoggedInAsWritten` | middleware/index.js:9-11 | As written, an unauthenticated JSON request ends in Express's error handler. Every other request gets what `IsLoggedIn` gives it. |
| `Middleware.JsonLoginErrorNeverSent` | middleware/index.js:9-11 | As written, the JSON login error is never sent: the handler fails with "req.send is not a function". |
| `Middleware.IsPaid` | middleware/index.js:16-20 | The request goes on iff the user has paid. Otherwise it gets the payment warning and a redirect to `/checkout`. |
| `Middleware.LoggedInAndPaid` | routes/campgrounds.js:30 | `router.use(isLoggedIn, isPaid)` lets a request through iff it is authenticated and the user has paid. The first guard that refuses gives the answer. |
| `Middleware.CheckOwnership` | middleware/index.js:22-66 | The request goes on iff it is authenticated, the document was found, and the user owns it or is an administrator. Without login: the warning and redirect back. On a lookup error or a missing document: "Campground/Comment not found". Otherwise: "You don`t have permission". |
| `Middleware.CheckCampgroundOwnership` | middleware/index.js:22-43 | The request goes on iff it is authenticated, the campground was found, and the user owns it or is an administrator. Otherwise: the login warning, "Campground not found", or the permission error, each with a redirect back. |
| `Middleware.CheckCommentOwnership` | middleware/index.js:45-66 | The request goes on iff it is authenticated, the comment was found, and the user owns it or is an administrator. Otherwise: the login warning, "Comment not found", or the permission error, each with a redirect back. |
| `Middleware.OwnershipDecision` | middleware/index.js:45-66 | Each request gets exactly the decision of the ownership rule (allow, unauthenticated, not found, forbidden). The comment check decides as the campground check does. |
| `RegexEscape.Escape` | routes/campgrounds.js:198-200 | The output length is the input length plus the number of characters in `-[]{}()*+?.,\^$|#` and JavaScript whitespace. |
| `RegexEscape.EscapeRoundTrip` | routes/campgrounds.js:198-200 | The escaped text is a literal pattern: every special character has a backslash in front of it, and every backslash escapes a special character. Deleting the inserted backslashes gives back the input. |
| `RegexEscape.UnescapeRoundTrip` | routes/campgrounds.js:198-200 | Every literal pattern is the escaping of the text obtained by unescaping it. So escaping is a bijection onto literal patterns. |
| `RegexEscape.EscapeInjective` | routes/campgrounds.js:198-200 | Different search texts give different patterns. |
| `RegexEscape.EscapeOrdinary` | routes/campgrounds.js:198-200 | Text with no special character is left unchanged. |
| `ImageFilter.Filter` | routes/campgrounds.js:15-21 | The verdict is acceptance or the error "Only image files are allowed!". |
| `ImageFilter.FilterAcceptsImages` | routes/campgrounds.js:17 | A file name is accepted iff it ends, ignoring case, in `.jpg`, `.jpeg`, `.png` or `.gif`. |
| `Hex.Encode` | routes/index.js:82-83 | The token has two characters per random byte, all of them lower-case hexadecimal digits. |
| `Hex.DecodeEncode` | routes/index.js:83 | Decoding the token gives back the random bytes. |
| `Hex.EncodeInjective` | routes/index.js:82-83 | Distinct random buffers give distinct tokens. |
| `Accounts.FindOne` | routes/index.js:132-144 | `findOne` returns the first account that matches the filter, or nothing iff no account matches. The token filter requires the exact token and an expiry strictly after `now`. |
| `Accounts.TokenAccepted` | routes/index.js:132 | A token is accepted iff some account stores exactly that token with an expiry strictly greater than `now`. So it is rejected at and after expiry. |
| `Accounts.UsernameIdentifies` | routes/index.js:30-52 | In a store whose usernames are unique, the lookup by a username finds exactly the account that holds it. `Register` keeps usernames unique, and after a sign-up the lookup by the new username finds the new account. |
| `Accounts.Issue` | routes/index.js:94-95 | Only the chosen account changes: it gets the token and the expiry `now + 3600000`; its name, e-mail, credential and flags stay. |
| `Accounts.Consume` | routes/index.js:150-152 | Only the chosen account changes: its token and expiry are cleared, and its credential becomes the new one when `setPassword` gave one and otherwise stays. |
| `Accounts.MarkPaid` | routes/index.js:236 | Only the chosen account changes: it is paid, and every other field stays. |
| `Accounts.DeclineMessage` | routes/index.js:246-253 | A decline with code `authentication_required` is answered with the fixed text. Any other decline is answered with the processor's message. |
| `Accounts.AdminGrant` | routes/index.js:39-41 | The corrected rule: the flag is granted iff a code is configured and a submitted code equals it. With no code configured, nobody is granted it. |
| `Accounts.AdminGrantAsWritten` | routes/index.js:39-41 | As written: the flag is granted iff both codes are absent or both are present and equal. |
| `Accounts.IssuedTokenWindow` | routes/index.js:94-95 | A token issued at time T is accepted, for its account, exactly at times before T + 3600000 ms. |
| `Accounts.IssueInvalidatesPrevious` | routes/index.js:94-95 | A second `/forgot` overwrites the token: the previous token no longer matches that account. |
| `Accounts.ConsumedTokenRejected` | routes/index.js:149-152 | After a successful reset, resubmitting the same token fails the lookup at any time. |
| `Accounts.IssueKeepsConsistent` | routes/index.js:94-95 | Issuing a 40-digit token keeps every account's token and expiry paired, and keeps usernames unique. |
| `Accounts.ConsumeKeepsConsistent` | routes/index.js:150-152 | Clearing the token together with its expiry keeps the store consistent. |
| `Accounts.MarkPaidKeepsConsistent` | routes/index.js:236 | Setting the paid flag keeps the store consistent. |
| `Accounts.AdminGrantWithoutCode` | routes/index.js:39-41 | As written, a server without `ADMIN_CODE` makes an administrator of any sign-up that omits `adminCode`. The corrected rule does not. |
| `Accounts.AdminGrantAgrees` | routes/index.js:39-41 | The corrected rule grants the admin flag iff a code is configured and the submitted code equals it. Wherever a code is configured, it agrees with the source. |
| `Accounts.AccountStore.Register` | routes/index.js:30-52 | A taken username, or a hashing-library error, renders the form with the error and adds nothing. Otherwise exactly one account is appended, unpaid and without a token. Its admin flag comes from the admin-code rule. The new user is signed in and redirected to `/checkout`. |
| `Accounts.AccountStore.Forgot` | routes/index.js:79-129 | An unknown e-mail gives "No account with that email address exists." and changes no account. For a known e-mail, the first matching account, and no other, gets the hex token and the expiry `now + 3600000`. Any earlier token is overwritten. |
| `Accounts.AccountStore.ResetPage` | routes/index.js:131-139 | The reset form is rendered iff the token is stored and unexpired. Otherwise the answer is "Password reset token is invalid or has expired." and a redirect to `/forgot`. |
| `Accounts.AccountStore.Reset` | routes/index.js:141-189 | An unknown or expired token changes nothing. So do mismatched passwords, which answer "Passwords do not match.": the token, expiry and credential stay as they were. Matching passwords store the new credential, clear the token and its expiry, and sign that account in. |
| `Accounts.AccountStore.Checkout` | routes/index.js:209-216 | Behind `isLoggedIn`, a paid user is redirected to `/campgrounds` with "Your account is already paid". An unpaid user gets the checkout page. |
| `Accounts.AccountStore.Pay` | routes/index.js:219-255 | The processor is asked to confirm 2000 at once, with `error_on_requires_action`. Only a confirmed intent sets `isPaid`, and the client secret is sent back. On a decline nothing changes. The answer is the fixed message for `authentication_required` and the processor's message otherwise. |
| `Campgrounds.MulterFilter` | routes/campgrounds.js:15-22 | A request goes on iff it carries no file or a file the image filter accepts. Otherwise the filter's error reaches Express. |
| `Campgrounds.Index` | routes/campgrounds.js:43-69 | A non-empty search is run with the escaped pattern. It answers "Campground no found" iff that search found nothing. A failing query leaves the request unanswered. |
| `Campgrounds.Creation` | routes/campgrounds.js:72-113 | A geocoder error or an empty answer gives "Invalid address" and stores nothing. A record is stored iff the address was found and the image was uploaded. The record's author is the current user's `{id, username}` and it has no comments. Its place is the first geocoder answer and its image is the hosted one. |
| `Campgrounds.Edit` | routes/campgrounds.js:147-183 | `name`, `price` and `description` always come from the form. `author` and `comments` never change. The image pair changes only when a file is uploaded, and then to the hosted image. The place changes only when the submitted location differs from the stored one. Nothing is saved iff the image host or the geocoder fails. |
| `Campgrounds.EditKeepsOwnership` | routes/campgrounds.js:147-183 | An edit leaves the ownership decision on the campground exactly as it was. |
| `Campgrounds.CreateGuards` | routes/campgrounds.js:72 | CREATE runs iff the user is logged in and has paid and the upload passes the filter. |
| `Campgrounds.UpdateGuards` | routes/campgrounds.js:147 | UPDATE runs iff the user has paid, the campground exists and is the user's (or the user is an administrator), and the upload passes the filter. |
| `Campgrounds.CampgroundStore.Create` | routes/campgrounds.js:72-113 | A refused request changes nothing. A stored outcome adds exactly the `Creation` record under a new id and redirects to `/campgrounds`. |
| `Campgrounds.CampgroundStore.Update` | routes/campgrounds.js:147-183 | A refused request changes nothing. Otherwise only this campground is replaced, by the `Edit` record, and the user is redirected to its page. |

## Findings

| source | as written | input that shows it | evidently intended | confidence | as-written member | corrected member |
|---|---|---|---|---|---|---|
| middleware/index.js:9-11 | `req.send({ error: 'Login required' })`; a request object has no `send` | an unauthenticated request with `content-type: application/json`, e.g. the checkout page's `POST /pay` after the session expired | `res.send({ error: 'Login required' })` | high; not executed | `Middleware.JsonLoginErrorNeverSent` | `Middleware.IsLoggedIn` |
| routes/index.js:39-41 | `req.body.adminCode === process.env.ADMIN_CODE` | `ADMIN_CODE` not set on the server and a sign-up without the `adminCode` field: `undefined === undefined` grants the flag | grant the flag only when a code is configured and matches | medium; not executed | `Accounts.AdminGrantWithoutCode` | `Accounts.AdminGrantAgrees` |

The rest of the model uses the corrected definitions: `IsLoggedIn` in the
guards, `Checkout` and `Pay`, and `AdminGrant` in `Register`.

## Left out

- Server wiring (app.js), sessions and passport's login and logout, and the routes that only render or read: landing, login, logout, user profile, SHOW, EDIT form. They hold no decisions.
- The comment routes: their file is not part of this model. Only the comment ownership guard is modelled.
- DESTROY and the comment cascade: the `pre('remove')` hook at models/campground.js:28-34 is an arrow function, so `this.comments` is not the document, and the cascade is not guaranteed.
- MongoDB: query semantics (the `$or` regex search is the `matching` parameter of `Index`), `save()` failures, lookup errors inside the handlers, `populate`, Mongoose casting of `price`, and the strict-schema behaviour mentioned above: the undeclared user fields of models/user.js and `imageID` of models/campground.js are stored as the handlers intend.
- The ordering of `async.waterfall` and of callbacks. A handler runs as one step right after its guards, so races between concurrent requests are not modelled.
- The mailer, apart from its error at the end of `/forgot`. After a reset, the mail's outcome does not change the answer.
- `crypto.randomBytes` failure: `buf.toString` would throw at routes/index.js:83 before `done` runs. The model takes the 20 bytes as given.
- Register: the profile fields `firstName`, `lastName` and `avatar`. Of the library's checks, only the duplicate username is modelled, with its default message; every other library failure arrives through the `hashed` argument.
- Pay: the `items` field from the client, and a failing `req.user.save()`. Nothing stops a second charge: `Pay` does not consult `isPaid`.
- The checkout page's displayed amount (`amount: 20`) and the `paid` query message of the index page. Both are rendering only.
- The image host as state. In UPDATE the old image is destroyed before a later geocoder failure, which leaves the stored `imageID` naming a deleted image. The model records only that nothing is saved.
- Multer's disk storage naming (routes/campgrounds.js:10-14).
- Text is compared as Unicode scalar values, where JavaScript compares UTF-16 code units. Every special character of `escapeRegex` and `imageFilter` is a single code unit, so results agree. `\s` is the whole ECMAScript set of white-space and line-terminator code points.
- Accounts.IssuedTokenWindow: assumes no other account holds the same token, because random tokens are not proved unique. Without that assumption, another account with the same token could still answer.
- Accounts.ConsumedTokenRejected: assumes no other account holds the same token, for the same reason. Unconditionally, the consumed account itself no longer matches any token.
