# CivicFix backend — a Dafny model

CivicFix is a small civic-complaint service. Citizens register, log in, file
complaints (title, description, location, category, image) and list their own.
Administrators list every complaint, change a complaint's status, and read
statistics. A status change appends an entry to the complaint's history and
sends the owner an email notification. The mailer tries the transport up
to three times with exponential backoff. A trends endpoint reports, for the
last seven days, how many complaints were created each day.

The model has one module per concern:

- `Js`: the JavaScript semantics the handlers rely on. An undefined value is an
  `Option`, truthiness is "present and non-empty", and `String.prototype.trim`,
  `startsWith` and `split` are modelled, with their round-trip lemmas.
- `ComplaintSchema`: the complaint document with its two enumerations, its
  defaults, the title `trim` setter and the validators that run when a
  complaint is created.
- `Db`: the database as a `Store` class holding the `complaints` and `users`
  tables. It offers the writes the handlers issue: create, replace by id and
  delete.
- `Mailer`: `sendEmailWithRetry` as a loop (`SendWithRetry`) proved against a
  specification function (`RetrySpec`), and `sendEmail` with its guards and the
  options it builds. Attempt `k + 1` of the transport has outcome `script[k]`.
  The waits are recorded as millisecond values instead of being slept.
- `AuthMiddleware`: `protect`. The Bearer header is parsed and the token is
  resolved through an abstract verifier (`verify`, standing for `jwt.verify`).
  The built-in administrator bypasses the store look-up.
- `AuthRoutes`: register and login. A signed token is represented by its
  payload.
- `ComplaintControllers`: create, list all, list mine, the status update with
  its notification, delete, and the seven-day trend series. The trend series
  is a gap-fill loop over the rows the aggregation returned.
- `AdminRoutes`: the statistics endpoint.

Requests, environment variables and database contents are explicit arguments.
The handlers' HTTP responses are result datatypes, one constructor per
status/body shape. Ids are strings. Time has a resolution of whole days (`Day`).

Kept as written, although the source's own comments say otherwise:

- The trends handler has no role check, while the route's comment says
  "admin only" (routes/complaintRoutes.js:33).
- Deletion compares the owner before it looks at the role, so an ownerless
  complaint cannot be deleted even by an admin, while the handler's comment
  says "admin or owner" (controllers/complaintControllers.js:126).

Kept as written:

- The status update writes the requested status without enum validation.
- On login, unset admin credentials compare equal to absent body fields.

Every id the store creates is an ObjectId. The built-in administrator's id
"admin-id" is not one. So any operation that puts it in a complaint's `user`
field or in a query on it fails with a cast error (500):

- creating a complaint;
- listing "my" complaints;
- repairing an ownerless complaint during a status update.

The model captures this with `Db.Castable`: `Db.FreshId` proves that every
minted id casts, and the built-in administrator's id does not.

## Model

| member | source | states |
|---|---|---|
| Js.LeadingSpaces | models/complaint.js:6 | the count of leading characters trim removes: all of them are whitespace and the next character, if any, is not |
| Js.TrailingSpaces | utils/sendEmail.js:78 | the count of trailing characters trim removes: all of them are whitespace and the character before them, if any, is not |
| Js.TrimStart | models/complaint.js:6 | the result is a suffix of the input that does not start with whitespace, and everything dropped is whitespace |
| Js.TrimEnd | models/complaint.js:6 | the result is a prefix of the input that does not end with whitespace, and everything dropped is whitespace |
| Js.TrimIsInfix | utils/sendEmail.js:78 | trim returns the contiguous middle of the input: only whitespace is removed on either side, and the result neither starts nor ends with whitespace |
| Js.TrimIdempotent | models/complaint.js:6 | trimming twice is trimming once |
| Js.TrimKeepsTrimmed | models/complaint.js:6 | a string with no leading or trailing whitespace is unchanged by trim |
| Js.Split | middleware/authMiddleware.js:14 | split on a separator yields at least one field, no field contains the separator, and there is more than one field iff the separator occurs |
| Js.JoinSplit | middleware/authMiddleware.js:14 | joining the fields of a split with the same separator gives back the original string |
| Js.SplitJoin | middleware/authMiddleware.js:14 | splitting a join of separator-free fields gives back exactly those fields |
| Js.StartsWith | middleware/authMiddleware.js:12 | a string starts with a prefix iff it is that prefix followed by some rest |
| ComplaintSchema.ViolationsExact | models/complaint.js:5-37 | the set of violations is exactly the set of validators that reject the fields |
| ComplaintSchema.Create | models/complaint.js:5-37 | creation succeeds iff no validator fails (on failure, exactly the failing validators are reported). A created document conforms to the schema: trimmed non-empty title, description present, category and status in their enumerations, owner set. Defaults are "Other", "Pending" and "", the history is empty and the creation time is now |
| Db.FreshId | controllers/complaintControllers.js:10 | the id assigned to a new document is not already in use, and it casts to an ObjectId |
| Db.Store.InsertComplaint | controllers/complaintControllers.js:10-18 | the complaint is stored under a fresh id that casts to an ObjectId; nothing else changes |
| Db.Store.ReplaceComplaint | controllers/complaintControllers.js:76-92 | the document under the id is replaced; nothing else changes |
| Db.Store.RemoveComplaint | controllers/complaintControllers.js:142 | the id is removed from the complaints; nothing else changes |
| Db.Store.InsertUser | routes/authRoutes.js:22 | the user is stored under a fresh id that casts to an ObjectId; complaints are unchanged |
| Db.EmailTaken | routes/authRoutes.js:19-20 | an empty user table takes no email; under unique emails, a taken email belongs to exactly one user, so the look-up finds a single user |
| Mailer.Backoffs | utils/sendEmail.js:13-17 | the n waits after n failed attempts are 2^k * 1000 ms for k = 1..n, in order |
| Mailer.FirstSent | utils/sendEmail.js:5-9 | the first successful attempt in a range: it succeeds, every earlier attempt failed, and there is none iff all attempts in the range failed |
| Mailer.RetrySpec | utils/sendEmail.js:4-23 | the specification of the retry loop: it falls through iff no attempt is allowed, and it rethrows iff every allowed attempt fails, after using all of them, with the last attempt's error |
| Mailer.SendWithRetry | utils/sendEmail.js:4-23 | the retry loop returns the first success, or rethrows the last error after every attempt failed, or falls through when no attempt is allowed. It also records the waits between attempts. This is exactly RetrySpec |
| Mailer.RetryBounds | utils/sendEmail.js:5-20 | at most maxRetries transport calls, and every call before the last failed. There is one wait per failed attempt except the last, the k-th being 2^k seconds |
| Mailer.RetryDeliveredIff | utils/sendEmail.js:8-9 | delivery happens iff some allowed attempt succeeds, and the message id reported is that of the last attempt made |
| Mailer.RetryExhausted | utils/sendEmail.js:13-19 | when every allowed attempt fails, all of them are made and the last error is rethrown |
| Mailer.ThreeFailuresSchedule | utils/sendEmail.js:13-19 | with three failing attempts: three calls, waits of 2000 ms and 4000 ms, and the third error rethrown |
| Mailer.BuildOptions | utils/sendEmail.js:57-83 | the recipient is the trimmed `to`, and the subject and text are passed through unchanged. The HTML body is never empty. Reply-to is ADMIN_EMAIL when set, else "admin@civicfix.com". The sender address holds EMAIL_USER |
| Mailer.OptionsShape | utils/sendEmail.js:57-83 | the recipient is the trimmed `to` (so trimming it again changes nothing), and the HTML body is the given one or else the template around the text |
| Mailer.SendEmail | utils/sendEmail.js:25-112 | without both credentials, or without a recipient, no transport attempt is made and the result is false. Otherwise the built options go through three attempts. The result is true iff one of the three attempts succeeds, and errors never escape |
| AuthMiddleware.Protect | middleware/authMiddleware.js:6-44 | no Bearer header gives 401 "Not authorized, no token". A missing second header field or a failed verification gives 401 "Token verification failed", and a non-admin id not in the store gives 401 "User not found". The request is authorized iff the token is present, verifies, and names the built-in administrator or a stored user. The principal is the built-in administrator or that user |
| AuthMiddleware.HasBearer | middleware/authMiddleware.js:10-13 | the header check passes iff the header is present and is "Bearer" followed by anything |
| AuthMiddleware.TokenOf | middleware/authMiddleware.js:14 | `split(' ')[1]` is defined iff the header contains a space, and the token it yields contains no space |
| AuthMiddleware.BearerToken | middleware/authMiddleware.js:10-14 | for a space-free token, "Bearer " + token passes the header check and yields exactly that token |
| AuthMiddleware.BearerRoundTrip | middleware/authMiddleware.js:14-36 | a Bearer header with a verifiable token for a stored user resolves to that user |
| AuthMiddleware.AdminBypassIgnoresUsers | middleware/authMiddleware.js:20-27 | a token for "admin-id" authorizes the fixed administrator principal whatever the user table holds |
| AuthRoutes.InsertKeepsUnique | routes/authRoutes.js:19-22 | adding a user whose email is not taken keeps emails unique |
| AuthRoutes.NewUser | routes/authRoutes.js:22 | the new user keeps the given name, email and password; the role is the given one when truthy, else "user", so it is never empty (and not checked against any list) |
| AuthRoutes.AdminMatch | routes/authRoutes.js:36 | with both admin variables unset, the admin comparison holds exactly for a body with neither email nor password. Whenever it holds, the given email and password are non-empty exactly when the configured ones are |
| AuthRoutes.Register | routes/authRoutes.js:16-29 | a taken email gives 400 and changes nothing. Otherwise exactly one user is added under a fresh id that casts to an ObjectId (so the new user can file complaints), with role defaulting to "user". The token carries that id and role, the response shows name, email and role, and email uniqueness is preserved |
| AuthRoutes.CheckUser | routes/authRoutes.js:42-46 | user login succeeds iff some stored user has that email and exactly that password. The token then carries that user's id and role |
| AuthRoutes.Login | routes/authRoutes.js:32-47 | the admin token ("admin-id", "admin") is issued iff email and password strictly equal the configured admin pair; otherwise the result is the user check |
| AuthRoutes.UnsetAdminEnvOpensAdmin | routes/authRoutes.js:36-38 | with ADMIN_EMAIL and ADMIN_PASSWORD unset, a body without email and password obtains the admin token |
| AuthRoutes.LoginConfiguredAdmin | routes/authRoutes.js:36-38 | with the admin branch guarded by configured credentials, the admin token requires a non-empty email and password. The user check is unaffected, and with configured credentials the behaviour is the original one |
| AuthRoutes.RegisterThenLogin | routes/authRoutes.js:16-47 | a freshly registered user can log in with the same email and password and receives a token for the new id |
| AuthRoutes.LoginThenProtect | routes/authRoutes.js:45-46 | a token issued by a successful login, sent as a Bearer header and accepted by the verifier, authorizes that user (or the built-in administrator), with the token's role |
| ComplaintControllers.CreateComplaint | controllers/complaintControllers.js:6-25 | with a castable caller id and valid fields, the complaint is stored under a fresh id, owned by the caller, with status "Pending" and an empty history. Otherwise the result is 500 and the store is unchanged |
| ComplaintControllers.CreationFields | controllers/complaintControllers.js:10-18 | the fields handed to the schema are the body's, with the caller as owner and status "Pending", so the owner and status validators can never fail |
| ComplaintControllers.GetAllComplaints | controllers/complaintControllers.js:28-40 | non-admins get 403. Admins get every complaint, each with its owner's name and email (null when the owner is not a stored user) |
| ComplaintControllers.GetMyComplaints | controllers/complaintControllers.js:43-51 | exactly the complaints whose owner is the caller, unmodified; 500 when the caller id does not cast |
| ComplaintControllers.CreateThenMine | controllers/complaintControllers.js:10-45 | a complaint created by a user appears in that user's list and in nobody else's |
| ComplaintControllers.ApplyStatusUpdate | controllers/complaintControllers.js:70-91 | exactly one history entry is appended (earlier entries kept). The status is the truthy requested one, else the current one, and the entry records that status, the time, the admin's name or email and the comment or "". A missing owner becomes the admin, and no other field changes |
| ComplaintControllers.Recipient | controllers/complaintControllers.js:96 | a notification goes out iff the owner names a stored user with a non-empty email; that is the populated owner's email |
| ComplaintControllers.StatusText | controllers/complaintControllers.js:101 | the text body is non-empty, contains the title and the new status, and ends with the admin comment |
| ComplaintControllers.StatusHtml | controllers/complaintControllers.js:102-104 | the HTML body is non-empty and contains the title, the new status and the admin comment |
| ComplaintControllers.StatusMail | controllers/complaintControllers.js:98-105 | the notification goes to the owner's email with the fixed subject. It always carries a text and an HTML body, so the template is never used. Both bodies contain the complaint's title and its new status; the HTML contains the comment or "No comment.", and the text ends with it |
| ComplaintControllers.UpdateComplaintStatus | controllers/complaintControllers.js:54-124 | non-admins get 403 and unknown ids 404, both without a write or an email. An owner repair to "admin-id" fails with 500 and writes nothing. Otherwise exactly that complaint is replaced by the updated record, and an email is attempted iff the owner is a stored user with an email. emailSent is true iff that email was delivered |
| ComplaintControllers.BuiltInAdminRepairFails | controllers/complaintControllers.js:70-73 | when the built-in administrator updates an ownerless complaint, the repaired owner "admin-id" does not cast, so the update fails |
| ComplaintControllers.UpdateSkipsEnumCheck | controllers/complaintControllers.js:91 | a requested status outside the enumeration ("Closed") is written as is |
| ComplaintControllers.DeleteVerdict | controllers/complaintControllers.js:129-140 | unknown id gives 404 and an ownerless complaint 500. Otherwise deletion is allowed iff the caller is the owner or an admin, and 403 is returned in every other case |
| ComplaintControllers.OwnerlessUndeletable | controllers/complaintControllers.js:135 | as written, an admin cannot delete a complaint that has no owner |
| ComplaintControllers.IntendedDeleteVerdict | controllers/complaintControllers.js:135-140 | with the role checked first, an admin can delete any complaint and an owner their own; this agrees with the original whenever the complaint has an owner |
| ComplaintControllers.DeleteComplaint | controllers/complaintControllers.js:127-148 | the result is the verdict on the stored complaint, and the complaint is removed iff the verdict is "deleted"; users are unchanged |
| ComplaintControllers.Find | controllers/complaintControllers.js:181 | the first aggregation row for the day, or none iff no row has that day |
| ComplaintControllers.ComplaintTrends | controllers/complaintControllers.js:176-183 | seven rows for seven consecutive days ending today, in order, each carrying the aggregated count for that day or 0 |
| ComplaintControllers.TrendCountsMatchStore | controllers/complaintControllers.js:156-183 | over rows that aggregate the store since six days ago, each day of the window reports the number of complaints created that day |
| ComplaintControllers.EmptyStoreTrends | controllers/complaintControllers.js:176-183 | an empty store yields a count of 0 for every day of the window |
| AdminRoutes.AdminStats | routes/adminRoutes.js:8-20 | non-admins get 403. Admins get the number of users, the number of complaints and the number with status exactly "Resolved", which is at most the number of complaints |
| AdminRoutes.ResolvedIds | routes/adminRoutes.js:15 | exactly the stored complaints whose status is "Resolved", a subset of all complaints |
| AdminRoutes.ResolvingCounts | routes/adminRoutes.js:15 | changing one unresolved complaint to "Resolved" raises the resolved count by exactly one |

## Left out

- Logging (`console.*`), the Express plumbing and the HTTP response bodies' JSON encoding are left out. Responses are result constructors.
- `server.js`, `routes/complaintRoutes.js` and `controllers/authControllers.js` are not part of this model. Which middleware guards which route is therefore not modelled.
- `models/user.js` is not part of this model. The user fields are the ones the handlers read; schema validation of users, and the 500 from a failed `User.create`, are not modelled.
- JWT signing, secrets, signatures and the one-hour expiry are left out: a token is its payload, and `jwt.verify` is an abstract parameter.
- Request ids that are not valid ObjectIds: the source answers a cast error with 500 rather than 404, and the model treats any unknown id as not found. The only cast failure modelled is the built-in administrator's "admin-id" in a complaint's `user` field.
- Real dates, the local-time versus UTC mismatch between `setDate` and `toISOString`, and the time-of-day cutoff of `sevenDaysAgo` are left out. Time is a whole day.
- The aggregation pipeline itself is left out. Its output rows are an input, related to the store by `IsDailyAggregate`; the `$sort` stage does not affect the result and is not modelled.
- The nodemailer transport configuration and the branded template's markup are presentation. `TemplateHead` and `TemplateTail` stand for it.
- The classification of transport error messages in the catch block is logging only.
- `setTimeout` is left out: the waits are recorded as values, not slept.
- Concurrency and interleaving of requests are left out; each handler runs atomically against the store.
- Database failures other than schema and cast errors (connection loss, timeouts) are not modelled, so the 500 branches they lead to are absent.
- The unhandled rejection of a failed user look-up in login is not modelled.
- List order is not modelled: listings are maps keyed by id, not arrays in the database's natural order.
- Non-string JSON values in request bodies are left out; every body field is a string or undefined.
- AuthRoutes.CheckUser: requires that emails are unique, a property Register keeps. The choice `findOne` makes among several users with the same email is not modelled.
- AuthRoutes.Login: requires unique emails for the same reason.
- AuthRoutes.RegisterThenLogin: the model assumes `User.create` stores the password unchanged, since `models/user.js` is not part of this model. If that schema hashes the password in a pre-save hook, as the bcrypt comparison in `controllers/authControllers.js:11` suggests, then the strict comparison at `routes/authRoutes.js:43` fails for every registered user, and login after register always answers 401.
- Db.EmailTaken: `findOne({ email })` with an undefined email is modelled as matching only a user whose email is also absent. What the program does then depends on Mongoose, which drops undefined filter values by default, so the query becomes `findOne({})`. In that case a register without email is refused as "User already exists" once any user exists, and a login without email is checked against the password of whichever user the query returns first. The model captures neither.
- AuthMiddleware.Protect: a verified payload always carries an id. A payload without one, or with an id that does not cast, is not modelled: the source answers the latter with "Token verification failed" where the model says "User not found".
- `populate` beyond name and email, and `.lean()`, are left out: the model's records are plain values throughout.

## Findings

| source | as written | input that shows it | evidently intended | confidence | as-written member | corrected member |
|---|---|---|---|---|---|---|
| routes/authRoutes.js:36 | the admin branch compares the body's email and password with `===` against ADMIN_EMAIL and ADMIN_PASSWORD, which may be unset | ADMIN_EMAIL and ADMIN_PASSWORD unset, login body `{}`: both comparisons are `undefined === undefined`, so an admin token is issued | the admin branch only opens when admin credentials are configured and match | not executed | AuthRoutes.UnsetAdminEnvOpensAdmin | AuthRoutes.LoginConfiguredAdmin |
| controllers/complaintControllers.js:135 | the owner comparison dereferences `complaint.user` before the role is examined | an admin deletes a legacy complaint with no `user`: `complaint.user.toString()` throws and the answer is 500 | an admin may delete any complaint, as the handler's own "admin or owner" rule says | not executed | ComplaintControllers.OwnerlessUndeletable | ComplaintControllers.IntendedDeleteVerdict |

The handler models `AuthRoutes.Login` and `ComplaintControllers.DeleteComplaint` keep the behaviour as written. The corrected rules stand beside them and are proved to agree with the originals wherever the defect does not arise.
