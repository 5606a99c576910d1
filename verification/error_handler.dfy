/** The global error-handling middleware: classification of any thrown value, the JSON
    response body, the log record, and the not-found handler. */
module ErrorHandler {
  import opened Options
  import opened Text
  import opened Records
  import opened AppErrors

  /** `process.env.NODE_ENV` as the handler reads it. The raw-message rule compares it with
      "production" and the stack rules with "development", so an unset or any other value
      is a third mode. */
  datatype Mode = Development | Production | Other

  function ModeOf(nodeEnv: Option<string>): (mode: Mode)
    ensures mode == Development <==> nodeEnv == Some("development")
    ensures mode == Production <==> nodeEnv == Some("production")
  {
    if nodeEnv == Some("development") then Development
    else if nodeEnv == Some("production") then Production
    else Other
  }

  /** One key of a Mongoose `ValidationError`'s `errors` object, with its sub-error's message. */
  datatype FieldError = FieldError(field: string, message: string)

  /** One Zod issue: its path segments (array indices already written as text) and message. */
  datatype ZodIssue = ZodIssue(path: seq<string>, message: string)

  /** An error not built from `AppError`, as thrown by a library. `fieldErrors` lists the keys
      of `errors` in `Object.keys` order, `keyPattern` the keys of `keyPattern` in the same
      order, `keyValue` the duplicate's values already rendered as text, and `issues` the
      optional Zod issue list. */
  datatype ForeignError = ForeignError(
    name: string,
    message: string,
    stack: string,
    code: Option<int>,
    fieldErrors: seq<FieldError>,
    keyPattern: seq<string>,
    keyValue: map<string, string>,
    issues: Option<seq<ZodIssue>>)

  /** Whatever reaches the handler: an `AppError` or a foreign error. */
  datatype Thrown = App(app: AppError) | Foreign(foreign: ForeignError) {

    function Name(): string {
      match this
      case App(e) => e.name
      case Foreign(f) => f.name
    }

    function Message(): string {
      match this
      case App(e) => e.message
      case Foreign(f) => f.message
    }

    function Stack(): string {
      match this
      case App(e) => e.stack
      case Foreign(f) => f.stack
    }

    /** `err.code`; an `AppError` has none. */
    function Code(): Option<int> {
      match this
      case App(_) => None
      case Foreign(f) => f.code
    }
  }

  datatype Request = Request(path: string, httpMethod: string, originalUrl: string)

  // ---------------------------------------------------------------------------
  // Precedence
  // ---------------------------------------------------------------------------

  /** The arms of the handler's if/else chain. */
  datatype Branch =
    | AppErrorBranch
    | MongooseValidation
    | DuplicateKey
    | CastFailure
    | InvalidToken
    | ExpiredToken
    | ZodValidation
    | Unexpected

  /** The guard of each arm, read on its own. The guards overlap (an `AppError` may carry
      any name), which is why their order matters. */
  predicate Matches(b: Branch, err: Thrown) {
    match b
    case AppErrorBranch => err.App?
    case MongooseValidation => err.Name() == "ValidationError"
    case DuplicateKey => err.Name() == "MongoServerError" && err.Code() == Some(11000)
    case CastFailure => err.Name() == "CastError"
    case InvalidToken => err.Name() == "JsonWebTokenError"
    case ExpiredToken => err.Name() == "TokenExpiredError"
    case ZodValidation => err.Name() == "ZodError"
    case Unexpected => true
  }

  const Precedence: seq<Branch> :=
    [AppErrorBranch, MongooseValidation, DuplicateKey, CastFailure, InvalidToken, ExpiredToken, ZodValidation, Unexpected]

  /** Position of the first branch in `bs` whose guard holds, or `|bs|` if none does. */
  function FirstMatch(bs: seq<Branch>, err: Thrown): (i: nat)
    ensures i <= |bs|
    ensures i < |bs| ==> Matches(bs[i], err)
    ensures forall j :: 0 <= j < i ==> !Matches(bs[j], err)
    decreases |bs|
  {
    if |bs| == 0 then 0
    else if Matches(bs[0], err) then 0
    else 1 + FirstMatch(bs[1..], err)
  }

  function Rank(b: Branch): nat {
    match b
    case AppErrorBranch => 0
    case MongooseValidation => 1
    case DuplicateKey => 2
    case CastFailure => 3
    case InvalidToken => 4
    case ExpiredToken => 5
    case ZodValidation => 6
    case Unexpected => 7
  }

  /** `b` is the first branch, in precedence order, whose guard holds for `err`. */
  ghost predicate FirstMatching(b: Branch, err: Thrown) {
    Matches(b, err) && forall b': Branch :: Rank(b') < Rank(b) ==> !Matches(b', err)
  }

  lemma RankLocatesBranch(b: Branch)
    ensures Rank(b) < |Precedence| && Precedence[Rank(b)] == b
  {
  }

  /** At most one branch is the first matching one. */
  lemma FirstMatchingUnique(b1: Branch, b2: Branch, err: Thrown)
    requires FirstMatching(b1, err) && FirstMatching(b2, err)
    ensures b1 == b2
  {
    assert Rank(b1) == Rank(b2);
  }

  /** The branch selected by searching the precedence list. */
  function Select(err: Thrown): (b: Branch)
    ensures FirstMatching(b, err)
  {
    assert Matches(Precedence[7], err);
    var i := FirstMatch(Precedence, err);
    var b := Precedence[i];
    RankLocatesBranch(b);
    assert Rank(b) == i;
    forall b': Branch | Rank(b') < i ensures !Matches(b', err) {
      RankLocatesBranch(b');
    }
    b
  }

  // ---------------------------------------------------------------------------
  // The three payload helpers
  // ---------------------------------------------------------------------------

  /** The assignments made by the `forEach` callback: one per key of `err.errors`. */
  function FieldEntries(fieldErrors: seq<FieldError>): (entries: seq<Entry>)
    ensures |entries| == |fieldErrors|
    ensures KeysOf(entries) == set fe | fe in fieldErrors :: fe.field
  {
    var entries := seq(|fieldErrors|, i requires 0 <= i < |fieldErrors| => Entry(fieldErrors[i].field, fieldErrors[i].message));
    assert KeysOf(entries) == set fe | fe in fieldErrors :: fe.field by {
      forall k | k in KeysOf(entries) ensures k in set fe | fe in fieldErrors :: fe.field {
        var e :| e in entries && e.key == k;
        var i :| 0 <= i < |entries| && entries[i] == e;
        assert fieldErrors[i] in fieldErrors;
      }
      forall k | k in set fe | fe in fieldErrors :: fe.field ensures k in KeysOf(entries) {
        var fe :| fe in fieldErrors && fe.field == k;
        var i :| 0 <= i < |fieldErrors| && fieldErrors[i] == fe;
        assert entries[i] in entries;
      }
    }
    entries
  }

  /** `handleMongooseValidationError`: every key of `err.errors` mapped to its sub-error's
      message; a `__proto__` key is lost to the prototype setter. */
  function HandleMongooseValidationError(fieldErrors: seq<FieldError>): (errors: map<string, string>)
    ensures errors.Keys == (set fe | fe in fieldErrors :: fe.field) - {ProtoKey}
  {
    Assign(FieldEntries(fieldErrors))
  }

  /** Rendering of JavaScript's `undefined` inside a template literal or as a computed key. */
  const UndefinedText := "undefined"

  /** The template literal of the duplicate-key entry: the field, then the quoted value. */
  function DuplicateMessage(field: string, value: string): (text: string)
    ensures |text| == |field| + |value| + 18
    ensures text[..|field|] == field && text[|field| .. |field| + 2] == " '"
    ensures text[|field| + 2 .. |field| + 2 + |value|] == value
    ensures text[|field| + 2 + |value| ..] == "' already exists"
  {
    field + " '" + value + "' already exists"
  }

  /** `handleMongoDuplicateKeyError`: one entry, keyed by the first key of `keyPattern`.
      An empty `keyPattern` or a missing `keyValue` entry reads as `undefined`, as in the source. */
  function HandleMongoDuplicateKeyError(keyPattern: seq<string>, keyValue: map<string, string>): (errors: map<string, string>)
    ensures |errors| == 1
    ensures |keyPattern| > 0 && keyPattern[0] in keyValue ==>
      errors == map[keyPattern[0] := DuplicateMessage(keyPattern[0], keyValue[keyPattern[0]])]
  {
    var field := if |keyPattern| > 0 then keyPattern[0] else UndefinedText;
    var value := if field in keyValue then keyValue[field] else UndefinedText;
    map[field := DuplicateMessage(field, value)]
  }

  /** The key a Zod issue is filed under: its path joined with ".". */
  function IssueKey(issue: ZodIssue): (key: string)
    ensures |issue.path| > 0 && SeparatorFree(issue.path, '.') ==> Split(key, '.') == issue.path
  {
    var key := Join(issue.path, '.');
    assert |issue.path| > 0 && SeparatorFree(issue.path, '.') ==> Split(key, '.') == issue.path by {
      if |issue.path| > 0 && SeparatorFree(issue.path, '.') {
        SplitJoin(issue.path, '.');
      }
    }
    key
  }

  /** The assignments made by the `forEach` callback: one per issue, under its joined path. */
  function IssueEntries(issues: seq<ZodIssue>): (entries: seq<Entry>)
    ensures |entries| == |issues|
    ensures KeysOf(entries) == set issue | issue in issues :: IssueKey(issue)
  {
    var entries := seq(|issues|, i requires 0 <= i < |issues| => Entry(IssueKey(issues[i]), issues[i].message));
    assert KeysOf(entries) == set issue | issue in issues :: IssueKey(issue) by {
      forall k | k in KeysOf(entries) ensures k in set issue | issue in issues :: IssueKey(issue) {
        var e :| e in entries && e.key == k;
        var i :| 0 <= i < |entries| && entries[i] == e;
        assert issues[i] in issues;
      }
      forall k | k in set issue | issue in issues :: IssueKey(issue) ensures k in KeysOf(entries) {
        var issue :| issue in issues && IssueKey(issue) == k;
        var i :| 0 <= i < |issues| && issues[i] == issue;
        assert entries[i] in entries;
      }
    }
    entries
  }

  /** `handleZodError`: each issue filed under its joined path, except a `__proto__` key,
      which the prototype setter swallows; a missing list gives `{}`. */
  function HandleZodError(issues: Option<seq<ZodIssue>>): (errors: map<string, string>)
    ensures issues.None? ==> errors == map[]
    ensures issues.Some? ==> errors.Keys == (set issue | issue in issues.value :: IssueKey(issue)) - {ProtoKey}
  {
    Assign(IssueEntries(issues.GetOr([])))
  }

  // ---------------------------------------------------------------------------
  // Classification, rendering and logging
  // ---------------------------------------------------------------------------

  /** Status, message and optional field mapping chosen for an error, with the arm that chose them. */
  datatype Classification = Classification(
    branch: Branch,
    statusCode: int,
    message: string,
    errors: Option<map<string, string>>)

  /** The if/else chain of `errorHandler`, in source order. */
  function Classify(err: Thrown, mode: Mode): (c: Classification)
    ensures FirstMatching(c.branch, err)
    ensures c.errors.Some? <==> c.branch in {MongooseValidation, DuplicateKey, ZodValidation}
  {
    match err
    case App(e) =>
      Classification(AppErrorBranch, e.statusCode, e.message, None)
    case Foreign(f) =>
      if f.name == "ValidationError" then
        Classification(MongooseValidation, 400, "Validation error", Some(HandleMongooseValidationError(f.fieldErrors)))
      else if f.name == "MongoServerError" && f.code == Some(11000) then
        Classification(DuplicateKey, 409, "Duplicate entry", Some(HandleMongoDuplicateKeyError(f.keyPattern, f.keyValue)))
      else if f.name == "CastError" then
        Classification(CastFailure, 400, "Invalid ID format", None)
      else if f.name == "JsonWebTokenError" then
        Classification(InvalidToken, 401, "Invalid token", None)
      else if f.name == "TokenExpiredError" then
        Classification(ExpiredToken, 401, "Token expired", None)
      else if f.name == "ZodError" then
        Classification(ZodValidation, 400, "Validation error", Some(HandleZodError(f.issues)))
      else
        Classification(Unexpected, 500, if mode == Production then "Something went wrong" else f.message, None)
  }

  datatype Disclosure = Disclosure(stack: string, name: string)

  /** The `error` object of the response; `errors` and the disclosure are spread in only when present. */
  datatype ErrorBody = ErrorBody(message: string, errors: Option<map<string, string>>, disclosure: Option<Disclosure>)

  datatype Body = Body(success: bool, error: ErrorBody)

  datatype Response = Response(status: int, body: Body)

  /** The object passed to `console.error`; `stack` is `undefined` outside development. */
  datatype LogRecord = LogRecord(name: string, message: string, stack: Option<string>, path: string, httpMethod: string)

  datatype Handled = Handled(log: LogRecord, response: Response)

  function LogRecordOf(err: Thrown, req: Request, mode: Mode): (log: LogRecord)
    ensures log.stack.Some? <==> mode == Development
    ensures log.stack.Some? ==> log.stack.value == err.Stack()
    ensures log.name == err.Name() && log.message == err.Message()
    ensures log.path == req.path && log.httpMethod == req.httpMethod
  {
    LogRecord(err.Name(), err.Message(), if mode == Development then Some(err.Stack()) else None, req.path, req.httpMethod)
  }

  function Render(c: Classification, err: Thrown, mode: Mode): (r: Response)
    ensures r.status == c.statusCode && !r.body.success
    ensures r.body.error.message == c.message && r.body.error.errors == c.errors
    ensures r.body.error.disclosure.Some? <==> mode == Development
    ensures r.body.error.disclosure.Some? ==> r.body.error.disclosure.value == Disclosure(err.Stack(), err.Name())
  {
    var disclosure := if mode == Development then Some(Disclosure(err.Stack(), err.Name())) else None;
    Response(c.statusCode, Body(false, ErrorBody(c.message, c.errors, disclosure)))
  }

  /** `errorHandler`: log the raw error, classify it, answer. */
  function HandleError(err: Thrown, req: Request, mode: Mode): (h: Handled)
    ensures h.log.name == err.Name() && h.log.message == err.Message()
    ensures !h.response.body.success
    ensures h.response.body.error.disclosure.Some? <==> mode == Development
  {
    var c := Classify(err, mode);
    Handled(LogRecordOf(err, req, mode), Render(c, err, mode))
  }

  /** `notFoundHandler`: the error it forwards to `next`. */
  function NotFoundHandler(req: Request, stack: string): (e: AppError)
    ensures e.statusCode == 404 && e.isOperational
    ensures e.message == "Route " + req.originalUrl + " not found"
  {
    NewAppError("Route " + req.originalUrl + " not found", 404, None, stack)
  }

  // ---------------------------------------------------------------------------
  // Properties
  // ---------------------------------------------------------------------------

  /** The if/else chain takes exactly the branch the precedence list selects. */
  lemma ClassifyFollowsPrecedence(err: Thrown, mode: Mode)
    ensures Classify(err, mode).branch == Select(err)
  {
    FirstMatchingUnique(Classify(err, mode).branch, Select(err), err);
  }

  /** An `AppError` answers with its own status and message and no field mapping,
      whatever its name; `isOperational` plays no part. */
  lemma AppErrorPassesThrough(e: AppError, mode: Mode)
    ensures Classify(App(e), mode) == Classification(AppErrorBranch, e.statusCode, e.message, None)
  {
  }

  /** Every subclass is caught by the first arm and answers with its own status and message. */
  lemma VariantsAnswerWithOwnStatus(v: Variant, message: Option<string>, stack: string, req: Request, mode: Mode)
    ensures var r := HandleError(App(NewVariant(v, message, stack)), req, mode).response;
      r.status == StatusOf(v) && r.body.error.message == message.GetOr(DefaultMessage(v)) && r.body.error.errors.None?
  {
  }

  /** Since `isOperational` is never consulted, a non-operational `InternalServerError`
      shows its custom message even in production. */
  lemma NonOperationalMessageShownInProduction(message: string, stack: string, req: Request)
    ensures HandleError(App(NewVariant(InternalServer, Some(message), stack)), req, Production).response
            == Response(500, Body(false, ErrorBody(message, None, None)))
  {
  }

  /** A `MongoServerError` with any code other than 11000 matches no arm but the last. */
  lemma MongoServerOtherCodeFallsThrough(f: ForeignError, mode: Mode)
    requires f.name == "MongoServerError" && f.code != Some(11000)
    ensures var c := Classify(Foreign(f), mode);
      c.branch == Unexpected && c.statusCode == 500 && c.errors.None?
  {
  }

  /** The keys of `err.errors`. */
  ghost function FieldsOf(fieldErrors: seq<FieldError>): set<string> {
    set fe | fe in fieldErrors :: fe.field
  }

  /** The fields of a `ValidationError` are the keys of an object, hence distinct; each gets
      exactly one entry holding its sub-error message, except `__proto__`, which gets none. */
  lemma MongooseValidationOneEntryPerField(fieldErrors: seq<FieldError>)
    requires DistinctKeys(FieldEntries(fieldErrors))
    ensures var errors := HandleMongooseValidationError(fieldErrors);
      && |errors| == |fieldErrors| - (if ProtoKey in FieldsOf(fieldErrors) then 1 else 0)
      && ProtoKey !in errors
      && forall i :: 0 <= i < |fieldErrors| && fieldErrors[i].field != ProtoKey ==>
           fieldErrors[i].field in errors && errors[fieldErrors[i].field] == fieldErrors[i].message
  {
    var entries := FieldEntries(fieldErrors);
    AssignDistinctSize(entries);
    forall i | 0 <= i < |fieldErrors| && fieldErrors[i].field != ProtoKey
      ensures fieldErrors[i].field in Assign(entries) && Assign(entries)[fieldErrors[i].field] == fieldErrors[i].message
    {
      assert entries[i] == Entry(fieldErrors[i].field, fieldErrors[i].message);
      assert LastAssignment(entries, i);
      AssignLastWins(entries, i);
    }
  }

  /** A Mongoose `ValidationError` gives 400, "Validation error" and the field mapping. */
  lemma MongooseValidationResult(f: ForeignError, mode: Mode)
    requires f.name == "ValidationError"
    ensures Classify(Foreign(f), mode)
            == Classification(MongooseValidation, 400, "Validation error", Some(HandleMongooseValidationError(f.fieldErrors)))
  {
  }

  /** A duplicate-key error gives 409 and one entry, keyed by the first key of `keyPattern`. */
  lemma DuplicateKeyEntry(f: ForeignError, mode: Mode)
    requires f.name == "MongoServerError" && f.code == Some(11000)
    requires |f.keyPattern| > 0 && f.keyPattern[0] in f.keyValue
    ensures var field := f.keyPattern[0];
      Classify(Foreign(f), mode)
      == Classification(DuplicateKey, 409, "Duplicate entry", Some(map[field := field + " '" + f.keyValue[field] + "' already exists"]))
  {
  }

  /** The full answer to a duplicate e-mail address in production. */
  lemma DuplicateEmailExample(stack: string, req: Request)
    ensures var f := ForeignError("MongoServerError", "E11000 duplicate key error", stack, Some(11000),
                                  [], ["email"], map["email" := "a@b.com"], None);
      HandleError(Foreign(f), req, Production).response
      == Response(409, Body(false, ErrorBody("Duplicate entry", Some(map["email" := "email 'a@b.com' already exists"]), None)))
  {
    assert "email" + " '" == "email '";
    assert "email '" + "a@b.com" == "email 'a@b.com";
    assert "email 'a@b.com" + "' already exists" == "email 'a@b.com' already exists";
  }

  /** With an empty `keyPattern` the field reads as `undefined`, and so does its value. */
  lemma DuplicateKeyWithoutPattern(f: ForeignError, mode: Mode)
    requires f.name == "MongoServerError" && f.code == Some(11000)
    requires |f.keyPattern| == 0 && "undefined" !in f.keyValue
    ensures Classify(Foreign(f), mode).errors == Some(map["undefined" := "undefined 'undefined' already exists"])
  {
    assert "undefined" + " '" == "undefined '";
    assert "undefined '" + "undefined" == "undefined 'undefined";
    assert "undefined 'undefined" + "' already exists" == "undefined 'undefined' already exists";
  }

  /** Cast and token errors answer with a fixed status and message that do not depend on the
      incoming message or on the mode, and carry no field mapping. */
  lemma FixedMessagesIgnoreIncoming(f: ForeignError, message: string, mode: Mode, mode': Mode)
    requires f.name in {"CastError", "JsonWebTokenError", "TokenExpiredError"}
    ensures var c := Classify(Foreign(f), mode);
      && c == Classify(Foreign(f.(message := message)), mode')
      && c.errors.None?
      && (f.name == "CastError" ==> c.statusCode == 400 && c.message == "Invalid ID format")
      && (f.name == "JsonWebTokenError" ==> c.statusCode == 401 && c.message == "Invalid token")
      && (f.name == "TokenExpiredError" ==> c.statusCode == 401 && c.message == "Token expired")
  {
  }

  /** A `ZodError` gives 400 and a mapping that is emitted even when empty. */
  lemma ZodValidationResult(f: ForeignError, mode: Mode)
    requires f.name == "ZodError"
    ensures var c := Classify(Foreign(f), mode);
      && c.statusCode == 400 && c.message == "Validation error"
      && c.errors == Some(HandleZodError(f.issues))
      && (f.issues.None? ==> c.errors == Some(map[]))
  {
  }

  /** The last issue filed under a key supplies its message, unless that key is
      `__proto__`, which gets no entry. */
  lemma ZodLaterIssueWins(issues: seq<ZodIssue>, i: int)
    requires 0 <= i < |issues|
    requires forall j :: i < j < |issues| ==> IssueKey(issues[j]) != IssueKey(issues[i])
    ensures IssueKey(issues[i]) in HandleZodError(Some(issues)) <==> IssueKey(issues[i]) != ProtoKey
    ensures IssueKey(issues[i]) != ProtoKey ==> HandleZodError(Some(issues))[IssueKey(issues[i])] == issues[i].message
  {
    var entries := IssueEntries(issues);
    assert entries[i] == Entry(IssueKey(issues[i]), issues[i].message);
    assert LastAssignment(entries, i);
    AssignLastWins(entries, i);
  }

  /** Distinct paths can share a key: the later issue overwrites the earlier one. */
  lemma ZodKeysCollide()
    ensures HandleZodError(Some([ZodIssue(["a.b"], "first"), ZodIssue(["a", "b"], "second")]))
            == map["a.b" := "second"]
  {
    var issues := [ZodIssue(["a.b"], "first"), ZodIssue(["a", "b"], "second")];
    assert IssueKey(issues[0]) == "a.b";
    assert IssueKey(issues[1]) == "a.b";
    var entries := IssueEntries(issues);
    assert entries == [Entry("a.b", "first"), Entry("a.b", "second")];
    assert entries[..1][..0] == [];
    AssignStep(entries[..1]);
    AssignStep(entries);
  }

  /** An issue at path `["__proto__"]` (a record key in a JSON body) leaves the mapping empty. */
  lemma ZodProtoPathDropped()
    ensures HandleZodError(Some([ZodIssue([ProtoKey], "bad")])) == map[]
  {
    var issues := [ZodIssue([ProtoKey], "bad")];
    assert IssueKey(issues[0]) == ProtoKey;
  }

  /** Non-empty paths whose segments contain no "." cannot collide. */
  ghost predicate PlainPaths(issues: seq<ZodIssue>) {
    forall i :: 0 <= i < |issues| ==> |issues[i].path| > 0 && SeparatorFree(issues[i].path, '.')
  }

  ghost predicate DistinctPaths(issues: seq<ZodIssue>) {
    forall i, j :: 0 <= i < j < |issues| ==> issues[i].path != issues[j].path
  }

  /** Plain, pairwise distinct paths give pairwise distinct keys. */
  lemma PlainDistinctPathsDistinctKeys(issues: seq<ZodIssue>)
    requires PlainPaths(issues) && DistinctPaths(issues)
    ensures DistinctKeys(IssueEntries(issues))
  {
    var entries := IssueEntries(issues);
    forall i, j | 0 <= i < j < |entries| ensures entries[i].key != entries[j].key {
      assert entries[i].key == IssueKey(issues[i]) && entries[j].key == IssueKey(issues[j]);
      JoinInjective(issues[i].path, issues[j].path, '.');
    }
  }

  /** With plain, pairwise distinct paths every issue keeps its own entry, except one filed
      under `__proto__`. */
  lemma ZodPlainPathsOneEntryPerIssue(issues: seq<ZodIssue>)
    requires PlainPaths(issues) && DistinctPaths(issues)
    ensures var errors := HandleZodError(Some(issues));
      && |errors| == |issues| - (if ProtoKey in KeysOf(IssueEntries(issues)) then 1 else 0)
      && forall i :: 0 <= i < |issues| && IssueKey(issues[i]) != ProtoKey ==>
           IssueKey(issues[i]) in errors && errors[IssueKey(issues[i])] == issues[i].message
  {
    var entries := IssueEntries(issues);
    PlainDistinctPathsDistinctKeys(issues);
    AssignDistinctSize(entries);
    forall i | 0 <= i < |issues| && IssueKey(issues[i]) != ProtoKey
      ensures IssueKey(issues[i]) in Assign(entries) && Assign(entries)[IssueKey(issues[i])] == issues[i].message
    {
      assert entries[i] == Entry(IssueKey(issues[i]), issues[i].message);
      assert LastAssignment(entries, i);
      AssignLastWins(entries, i);
    }
  }

  /** With plain paths every key splits back into the path of the issue that supplied its message. */
  lemma ZodKeySplitsToPath(issues: seq<ZodIssue>, key: string)
    requires PlainPaths(issues)
    requires key in HandleZodError(Some(issues))
    ensures exists i :: 0 <= i < |issues| && Split(key, '.') == issues[i].path
                        && HandleZodError(Some(issues))[key] == issues[i].message
  {
    var entries := IssueEntries(issues);
    AssignValueIsLastAssignment(entries, key);
    var i :| 0 <= i < |entries| && entries[i].key == key && LastAssignment(entries, i) && Assign(entries)[key] == entries[i].value;
    assert entries[i] == Entry(IssueKey(issues[i]), issues[i].message);
    SplitJoin(issues[i].path, '.');
  }

  /** The last arm: status 500, and the error's own message unless the mode is production. */
  lemma UnexpectedResult(err: Thrown, mode: Mode)
    requires FirstMatching(Unexpected, err)
    ensures Classify(err, mode)
            == Classification(Unexpected, 500, if mode == Production then "Something went wrong" else err.Message(), None)
  {
    FirstMatchingUnique(Classify(err, mode).branch, Unexpected, err);
  }

  /** The mode changes the classification only in the last arm. */
  lemma ModeMattersOnlyForUnexpected(err: Thrown, mode1: Mode, mode2: Mode)
    requires Select(err) != Unexpected
    ensures Classify(err, mode1) == Classify(err, mode2)
  {
    ClassifyFollowsPrecedence(err, mode1);
    ClassifyFollowsPrecedence(err, mode2);
  }

  /** Production: no stack or name in the body, no stack in the log, and an unexpected
      error's own message replaced by a fixed one. */
  lemma ProductionDisclosesNothing(err: Thrown, req: Request)
    ensures var h := HandleError(err, req, Production);
      && h.response.body.error.disclosure.None? && h.log.stack.None?
      && (Select(err) == Unexpected ==>
            h.response.status == 500 && h.response.body.error.message == "Something went wrong")
  {
    var c := Classify(err, Production);
    var h := HandleError(err, req, Production);
    assert h.response == Render(c, err, Production) && h.log == LogRecordOf(err, req, Production);
    if Select(err) == Unexpected {
      UnexpectedResult(err, Production);
    }
  }

  /** Development: stack and name in the body, stack in the log, and an unexpected error's
      own message. */
  lemma DevelopmentDisclosesEverything(err: Thrown, req: Request)
    ensures var h := HandleError(err, req, Development);
      && h.response.body.error.disclosure == Some(Disclosure(err.Stack(), err.Name()))
      && h.log.stack == Some(err.Stack())
      && (Select(err) == Unexpected ==>
            h.response.status == 500 && h.response.body.error.message == err.Message())
  {
    var c := Classify(err, Development);
    var h := HandleError(err, req, Development);
    assert h.response == Render(c, err, Development) && h.log == LogRecordOf(err, req, Development);
    if Select(err) == Unexpected {
      UnexpectedResult(err, Development);
    }
  }

  /** Any other mode (unset, `test`, ...): the unexpected error's own message, but no stack or name. */
  lemma OtherModeShowsMessageWithoutStack(err: Thrown, req: Request)
    ensures var h := HandleError(err, req, Other);
      && h.response.body.error.disclosure.None? && h.log.stack.None?
      && (Select(err) == Unexpected ==>
            h.response.status == 500 && h.response.body.error.message == err.Message())
  {
    var c := Classify(err, Other);
    var h := HandleError(err, req, Other);
    assert h.response == Render(c, err, Other) && h.log == LogRecordOf(err, req, Other);
    if Select(err) == Unexpected {
      UnexpectedResult(err, Other);
    }
  }

  /** An unmatched route answers 404 with the requested URL in the message, verbatim. */
  lemma NotFoundAnswers404(req: Request, stack: string, mode: Mode)
    ensures var r := HandleError(App(NotFoundHandler(req, stack)), req, mode).response;
      && r.status == 404 && r.body.error.message == "Route " + req.originalUrl + " not found"
      && r.body.error.errors.None?
  {
  }
}
