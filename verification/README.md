# Error classification layer of identity-service, in Dafny

This project models the error layer of a small Express/MongoDB authentication backend:

- the error taxonomy of `src/utils/error.ts` — `AppError` and its six subclasses, each fixing
  a status code and an `isOperational` flag, with a default message the caller may override;
- the terminal middleware of `src/middlewares/errorHandler.ts` — `errorHandler`, which logs
  the raw error, classifies it by a fixed first-match-wins chain (own `AppError`, Mongoose
  `ValidationError`, `MongoServerError` with code 11000, `CastError`, `JsonWebTokenError`,
  `TokenExpiredError`, `ZodError`, anything else), and answers with a JSON body whose
  disclosure depends on `NODE_ENV`; its three payload helpers; and `notFoundHandler`.

Everything is pure. A thrown value is a `Thrown`: either an `AppError` record or a
`ForeignError` record holding the properties the handler reads (`name`, `message`,
`stack`, `code`, the keys of `errors`, `keyPattern`, `keyValue`, the Zod issue list).
`instanceof` becomes a tag: `App` for the classifier, and an `ErrorClass` prototype field
for the subclass checks. `NODE_ENV` becomes a three-valued `Mode`, because the fallback
message compares it with `"production"` while both stack rules compare it with
`"development"`. An unset or `test` value therefore shows the raw message but no stack.
The `console.error` call becomes a returned `LogRecord`. The `res.status(...).json(...)` call
becomes a returned `Response`. A `Classification` also records which arm of the chain
fired (`branch`); that field is never rendered. It lets the precedence be stated against
an independent search over the precedence list.

Files: `options.dfy` (optional values), `text.dfy` (`join`/`split` on one character),
`records.dfy` (an object filled by successive assignments), `app_errors.dfy`
(module `AppErrors`), `error_handler.dfy` (module `ErrorHandler`).

Points where the code's behaviour is easy to misread:
- `TooManyRequestError`'s default message is the literal `"Too many reqeusts"`, misspelt.
- `stack` and `name` are disclosed only when `NODE_ENV` is exactly `development`. They are
  not disclosed in every non-production mode.
- `UnauthorizedError` installs `BadRequestError.prototype`. It is therefore an instance of
  `BadRequestError` and never of `UnauthorizedError`, while its status stays 401.
- The initial message `'Internal server error'` (errorHandler.ts:27) is overwritten on every
  path, so no response carries it unless an `AppError` does.
- Both record helpers fill a plain `{}` by assignment. Assigning to the key `__proto__` calls the
  inherited prototype setter, which ignores a string, so that key never appears in the mapping.
  The duplicate-key helper builds its object with a computed key instead, which always creates
  an own entry.

## Model

| member | source | states |
|---|---|---|
| Text.Join | src/middlewares/errorHandler.ts:124 | `join` of an empty list is `""`; otherwise the result is as long as the parts plus one separator between each pair, and starts with the first part |
| Text.SplitJoin | src/middlewares/errorHandler.ts:124 | splitting a `join('.')` of a non-empty path whose segments contain no `.` gives the path back |
| Text.JoinInjective | src/middlewares/errorHandler.ts:124 | two such paths join to the same key only if they are equal |
| Records.Assign | src/middlewares/errorHandler.ts:96-102 | the object filled by `obj[key] = value` per entry has exactly the keys of the entries other than `__proto__` |
| Records.AssignLastWins | src/middlewares/errorHandler.ts:121-128 | the key of the last assignment to it is in the object exactly when it is not `__proto__`, and then holds that assignment's value |
| Records.AssignValueIsLastAssignment | src/middlewares/errorHandler.ts:121-128 | every value in the object comes from the last entry assigning its key |
| Records.AssignDistinctSize | src/middlewares/errorHandler.ts:96-102 | with distinct keys the object has exactly one entry per assignment, less one when an assignment is to `__proto__` |
| AppErrors.NewAppError | src/utils/error.ts:1-16 | the constructor stores message and status verbatim; `isOperational` is true unless `false` is passed; the prototype is `AppError`'s and the name is the inherited `"Error"` |
| AppErrors.NewVariant | src/utils/error.ts:22-82 | each subclass fixes its status (400, 401, 404, 429, 500, 503), its default message (including `"Too many reqeusts"`) and its prototype; only `InternalServerError` is non-operational |
| AppErrors.OverrideChangesOnlyMessage | src/utils/error.ts:23-24 | an explicit message yields the default-built error with only the message replaced |
| AppErrors.EveryVariantIsAppError | src/utils/error.ts:22-82 | every subclass value is an instance of `AppError` |
| AppErrors.OnlyInternalServerIsNonOperational | src/utils/error.ts:66-71 | `isOperational` is false exactly for `InternalServerError` |
| AppErrors.UnauthorizedReportsAsBadRequest | src/utils/error.ts:33-37 | an `UnauthorizedError` is an instance of `BadRequestError` with status 401, and no constructed value is an instance of `UnauthorizedError` |
| AppErrors.VariantsDistinguishable | src/utils/error.ts:22-82 | distinct subclasses always differ in status code, and share a prototype exactly when they are `BadRequestError` and `UnauthorizedError` |
| ErrorHandler.ModeOf | src/middlewares/errorHandler.ts:20 | development and production each hold exactly when `NODE_ENV` equals that string; any other value, or none, is the third mode |
| ErrorHandler.FirstMatch | src/middlewares/errorHandler.ts:31-76 | the position found is that of a branch whose guard holds, and no earlier branch's guard holds |
| ErrorHandler.FirstMatchingUnique | src/middlewares/errorHandler.ts:31-76 | at most one branch is the first matching one |
| ErrorHandler.Select | src/middlewares/errorHandler.ts:31-76 | searching the precedence list yields the first branch whose guard holds |
| ErrorHandler.Classify | src/middlewares/errorHandler.ts:26-76 | the chain takes the first branch whose guard holds; a field mapping is present exactly on the Mongoose-validation, duplicate-key and Zod branches |
| ErrorHandler.ClassifyFollowsPrecedence | src/middlewares/errorHandler.ts:31-76 | the branch the chain takes is the one the precedence search selects |
| ErrorHandler.FieldEntries | src/middlewares/errorHandler.ts:98-99 | the callback makes one assignment per key of `err.errors`, and the keys assigned are exactly those keys |
| ErrorHandler.HandleMongooseValidationError | src/middlewares/errorHandler.ts:95-103 | the mapping's keys are exactly the fields of the sub-errors other than `__proto__` |
| ErrorHandler.DuplicateMessage | src/middlewares/errorHandler.ts:113 | the message is the field, a space and quote, the value, and `' already exists`, in that order and nothing else |
| ErrorHandler.HandleMongoDuplicateKeyError | src/middlewares/errorHandler.ts:108-115 | the mapping has exactly one entry; when `keyPattern` has a first key present in `keyValue`, it maps that key to `"<field> '<value>' already exists"` |
| ErrorHandler.IssueKey | src/middlewares/errorHandler.ts:124 | for a non-empty path whose segments contain no `.`, splitting the key at `.` gives the path back |
| ErrorHandler.IssueEntries | src/middlewares/errorHandler.ts:123-125 | the callback makes one assignment per issue, and the keys assigned are exactly the issues' keys |
| ErrorHandler.HandleZodError | src/middlewares/errorHandler.ts:120-129 | a missing issue list gives the empty mapping; otherwise the keys are exactly the issues' joined paths other than `__proto__` |
| ErrorHandler.LogRecordOf | src/middlewares/errorHandler.ts:17-23 | the log record carries name, message, path and method, and the stack exactly in development |
| ErrorHandler.Render | src/middlewares/errorHandler.ts:79-89 | status and message as classified, `success` false, the mapping only when present, and stack and name exactly in development |
| ErrorHandler.HandleError | src/middlewares/errorHandler.ts:10-90 | every answer has `success` false and discloses stack and name exactly in development; the log carries the raw name and message whatever the outcome |
| ErrorHandler.NotFoundHandler | src/middlewares/errorHandler.ts:147-154 | the forwarded error is operational, has status 404 and the message `"Route " + originalUrl + " not found"` |
| ErrorHandler.AppErrorPassesThrough | src/middlewares/errorHandler.ts:31-34 | any `AppError`, whatever its name or flag, answers with its own status and message and no mapping |
| ErrorHandler.VariantsAnswerWithOwnStatus | src/middlewares/errorHandler.ts:31-34 | every subclass value answers with its variant's status and its given or default message |
| ErrorHandler.NonOperationalMessageShownInProduction | src/middlewares/errorHandler.ts:31-34 | a non-operational `InternalServerError` shows its custom message in production, with status 500 and nothing else disclosed |
| ErrorHandler.MongoServerOtherCodeFallsThrough | src/middlewares/errorHandler.ts:42-76 | a `MongoServerError` with a code other than 11000 reaches the 500 fallback |
| ErrorHandler.MongooseValidationResult | src/middlewares/errorHandler.ts:36-40 | a `ValidationError` gives 400 "Validation error" and the mapping built from its sub-errors |
| ErrorHandler.MongooseValidationOneEntryPerField | src/middlewares/errorHandler.ts:95-103 | with distinct fields, the mapping has one entry per field holding that field's message, and none for `__proto__` |
| ErrorHandler.DuplicateKeyEntry | src/middlewares/errorHandler.ts:42-46 | a duplicate-key error gives 409 "Duplicate entry" and the single entry for the first key of `keyPattern` |
| ErrorHandler.DuplicateEmailExample | src/middlewares/errorHandler.ts:108-115 | key pattern `{email}` with value `a@b.com` answers 409 with `{email: "email 'a@b.com' already exists"}` |
| ErrorHandler.DuplicateKeyWithoutPattern | src/middlewares/errorHandler.ts:109-113 | an empty `keyPattern` files the entry under `"undefined"` with value `"undefined 'undefined' already exists"` |
| ErrorHandler.FixedMessagesIgnoreIncoming | src/middlewares/errorHandler.ts:48-61 | cast and token errors answer 400 "Invalid ID format", 401 "Invalid token" or 401 "Token expired", with no mapping, whatever their message and the mode |
| ErrorHandler.ZodValidationResult | src/middlewares/errorHandler.ts:63-67 | a `ZodError` gives 400 "Validation error" and a mapping that is emitted even when empty |
| ErrorHandler.ZodLaterIssueWins | src/middlewares/errorHandler.ts:123-126 | the last issue filed under a key supplies that key's message, unless the key is `__proto__`, which is absent |
| ErrorHandler.ZodKeysCollide | src/middlewares/errorHandler.ts:123-126 | paths `["a.b"]` and `["a","b"]` share the key `"a.b"`, and the later message wins |
| ErrorHandler.ZodProtoPathDropped | src/middlewares/errorHandler.ts:123-126 | an issue at path `["__proto__"]` leaves the mapping empty |
| ErrorHandler.PlainDistinctPathsDistinctKeys | src/middlewares/errorHandler.ts:124 | distinct non-empty paths free of `.` join to distinct keys |
| ErrorHandler.ZodPlainPathsOneEntryPerIssue | src/middlewares/errorHandler.ts:120-129 | with distinct non-empty paths free of `.`, every issue keeps its own entry, except one filed under `__proto__` |
| ErrorHandler.ZodKeySplitsToPath | src/middlewares/errorHandler.ts:123-126 | with such paths every key splits back into the path of the issue that supplied its message |
| ErrorHandler.UnexpectedResult | src/middlewares/errorHandler.ts:69-76 | when no earlier guard holds, the answer is 500 with "Something went wrong" in production and the error's own message in any other mode |
| ErrorHandler.ModeMattersOnlyForUnexpected | src/middlewares/errorHandler.ts:69-76 | outside the fallback, the classification does not depend on the mode |
| ErrorHandler.ProductionDisclosesNothing | src/middlewares/errorHandler.ts:71-72 | in production neither body nor log carries a stack or name, and the fallback answers 500 "Something went wrong" |
| ErrorHandler.DevelopmentDisclosesEverything | src/middlewares/errorHandler.ts:84-87 | in development the body carries stack and name, the log the stack, and the fallback the raw message |
| ErrorHandler.OtherModeShowsMessageWithoutStack | src/middlewares/errorHandler.ts:71-74 | in any other mode the fallback shows the raw message but neither body nor log carries a stack |
| ErrorHandler.NotFoundAnswers404 | src/middlewares/errorHandler.ts:152 | the not-found error answers 404 with `"Route " + originalUrl + " not found"` verbatim and no mapping |

## Left out

- `asyncHandler` (errorHandler.ts:135-141): it only forwards a promise rejection to `next`. That is asynchronous control flow with no value computation.
- Express mechanics: `next`, `res.status(...).json(...)` and the `console.error` sink. The model returns the response and the log record instead of emitting them.
- `Error.captureStackTrace` and `Object.setPrototypeOf`: the stack is an opaque string supplied at construction. The prototype is an `ErrorClass` field.
- Thrown values that are not objects. The model only represents error records. A primitive such as a string reaches the fallback. Outside production its `message` is then undefined, and `JSON.stringify` leaves it out of the body. `null` is never passed to an error handler, since Express treats it as no error.
- A `ValidationError` with no `errors` object, or a duplicate-key error with no `keyPattern` or `keyValue` object. The source throws a `TypeError` inside the handler for these. The model always has a list or map, so an absent one reads as empty.
- JavaScript value typing. `code` is an integer or absent, so a string `"11000"` never matches (strict equality agrees). `keyValue` values and numeric Zod path segments are held as text that is already rendered. Field and key lists are held in `Object.keys` order.
- A second error for the same request: the code has no guard against one, so nothing models one.
- Assigning a new `name` to an error after construction is not an operation. The `name` field of an `AppError` may nevertheless hold any text, and the classifier's lemmas hold for every name.
- Process startup, database and Redis connections, the Mongoose user schema and the type declarations: these are I/O or declarations, with no logic to model.
