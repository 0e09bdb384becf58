/** The operations handler mounted under "/ops/": it splits the operation name off the URL
    path, reads two int64 operands from the form or the JSON body, and answers with the
    operation and its result, with the list of its `arg` parameters, or with the names of
    the operations it knows. */
module Ops {
  import opened Wrappers
  import opened GoInt
  import opened Strconv
  import opened GoStrings
  import opened Http

  const OpsPrefix := "/ops/"

  const OpAdd := "add"
  const OpSubtract := "subtract"
  const OpEcho := "echo"
  const OpError := "error"
  const OpList := "list"

  const Opand1 := "operand1"
  const Opand2 := "operand2"
  const ArgKey := "arg"

  const JsonMediaType := "application/json"

  /** The body of the fallback answer: the JSON array of the operation names. */
  const HelpList := "[\"add\",\"subtract\",\"echo\",\"error\"]"

  /** The record that is filled from the request and sent back as JSON. */
  datatype Operation = Operation(operand1: int64, operand2: int64, oper: string, result: int64)

  /** One element of the `list` answer, `{"data": ...}`. */
  datatype ListObject = ListObject(data: string)

  /** The two fields decoded from a JSON body. */
  datatype Operands = Operands(operand1: int64, operand2: int64)

  /** Why the operands could not be read. */
  datatype BuildError =
    | NoOperand
    | InvalidValue(key: string)
    | NumError(num: string, cause: NumErr)
    | DecodeFailure(detail: string)
  {
    /** The error's text (the parsed text is shown between plain double quotes). */
    function Message(): string {
      match this
      case NoOperand => "no operand"
      case InvalidValue(key) => "invalid value for " + key
      case NumError(num, cause) => "strconv.ParseInt: parsing \"" + num + "\": " + cause.Message()
      case DecodeFailure(detail) => "failed to decode body: " + detail
    }
  }

  /** What one `Write` puts on the wire: literal text, or the JSON encoding of a value. */
  datatype Chunk = Text(text: string) | OperationJson(operation: Operation) | ListJson(items: seq<ListObject>)

  /** The two captures of the path pattern. */
  datatype OpPath = OpPath(op: string, params: string)

  /** The request as the handler sees it. `form` is what `ParseForm` produces (the merged
      form or the text of its error), `body` is what decoding the body as JSON produces, and
      `query` is the parsed query string of the URL. */
  datatype Request = Request(
    httpMethod: string,
    path: string,
    contentType: string,
    form: Result<Values, string>,
    body: Result<Operands, string>,
    query: Values)

  /** The operation built from the request and the error, if any, that stopped the build. */
  datatype Built = Built(oper: Operation, err: Option<BuildError>)

  // ---------------------------------------------------------------------------
  // GetOp: the pattern ^/ops/([[:alnum:]]+)\??(.*)$

  predicate IsAlnum(c: char) {
    '0' <= c <= '9' || 'A' <= c <= 'Z' || 'a' <= c <= 'z'
  }

  predicate AllAlnum(s: string) {
    forall i :: 0 <= i < |s| ==> IsAlnum(s[i])
  }

  /** Length of the longest prefix of `s` made of ASCII letters and digits. */
  function AlnumRun(s: string): (k: nat)
    ensures k <= |s|
    ensures AllAlnum(s[..k])
    ensures k < |s| ==> !IsAlnum(s[k])
  {
    if s == [] || !IsAlnum(s[0]) then 0
    else
      var k := 1 + AlnumRun(s[1..]);
      assert s[..k] == [s[0]] + s[1..][..k - 1];
      k
  }

  /** `GetOp`: the greedy alphanumeric run after "/ops/" is the operation, one '?' after
      it is skipped if present, and the rest is the parameter text; '.' does not match a
      newline, so a newline anywhere after the run makes the whole path fail. */
  function GetOp(path: string): Result<OpPath, string> {
    if !(OpsPrefix <= path) then Failure("url path does not match pattern")
    else
      var rest := path[|OpsPrefix|..];
      var k := AlnumRun(rest);
      var tail := rest[k..];
      if k == 0 || '\n' in tail then Failure("url path does not match pattern")
      else Success(OpPath(rest[..k], if tail != [] && tail[0] == '?' then tail[1..] else tail))
  }

  /** Reference reading of the pattern: one way of cutting `path` into the fixed prefix, a
      non-empty alphanumeric group, an optional '?' and a tail without newlines. A path may
      be cut in several ways; the regexp engine prefers the longest group, then the '?'. */
  predicate Decomposes(path: string, op: string, q: string, params: string) {
    && path == OpsPrefix + op + q + params
    && op != [] && AllAlnum(op)
    && (q == "" || q == "?")
    && '\n' !in params
  }

  /** Every capture GetOp reports comes from a cut of the path that the pattern allows. */
  lemma GetOpSound(path: string)
    ensures GetOp(path).Success? ==>
      var m := GetOp(path).value;
      Decomposes(path, m.op, "", m.params) || Decomposes(path, m.op, "?", m.params)
  {
  }

  /** Whenever the pattern can match, GetOp succeeds, and its operation is the longest
      group any match could have: every other group is a prefix of it. With the longest
      group, the optional '?' is taken whenever it is there. */
  lemma GetOpComplete(path: string, op: string, q: string, params: string)
    requires Decomposes(path, op, q, params)
    ensures GetOp(path).Success?
    ensures op <= GetOp(path).value.op
    ensures op == GetOp(path).value.op && q == "?" ==> GetOp(path).value.params == params
  {
  }

  /** Building the path from an operation name and a parameter text and splitting it again
      gives both back. */
  lemma GetOpOfPath(op: string, params: string)
    requires op != [] && AllAlnum(op) && '\n' !in params
    ensures GetOp(OpsPrefix + op + "?" + params) == Success(OpPath(op, params))
  {
    var path := OpsPrefix + op + "?" + params;
    assert path[..|OpsPrefix|] == OpsPrefix;
    var rest := path[|OpsPrefix|..];
    assert rest == op + "?" + params;
    assert forall i :: 0 <= i < |op| ==> rest[i] == op[i];
    assert rest[|op|] == '?';
    assert AlnumRun(rest) == |op|;
    assert rest[..|op|] == op;
    assert rest[|op|..] == "?" + params;
  }

  /** A path with no parameters splits into the operation name and an empty text. */
  lemma GetOpOfBarePath(op: string)
    requires op != [] && AllAlnum(op)
    ensures GetOp(OpsPrefix + op) == Success(OpPath(op, ""))
  {
    var path := OpsPrefix + op;
    assert path[..|OpsPrefix|] == OpsPrefix;
    var rest := path[|OpsPrefix|..];
    assert rest == op;
    assert AlnumRun(rest) == |op|;
    assert rest[..|op|] == op;
  }

  /** Without the "/ops/" prefix, or with nothing alphanumeric right after it (as for
      "/ops/" itself), GetOp fails. */
  lemma GetOpRejects(path: string)
    requires !(OpsPrefix <= path) || path == OpsPrefix
             || (|path| > |OpsPrefix| && OpsPrefix <= path && !IsAlnum(path[|OpsPrefix|]))
    ensures GetOp(path).Failure?
  {
  }

  /** The cases of the package's pattern test. */
  lemma RegexpTestCases()
    ensures GetOp("/ops/foo") == Success(OpPath("foo", ""))
    ensures GetOp("/ops/foo?blah") == Success(OpPath("foo", "blah"))
    ensures GetOp("/ops/add").Success? && GetOp("/ops/add").value.op == OpAdd
    ensures GetOp("/ops/").Failure?
  {
    GetOpOfBarePath("foo");
    assert "/ops/foo" == OpsPrefix + "foo";
    GetOpOfPath("foo", "blah");
    assert "/ops/foo?blah" == OpsPrefix + "foo" + "?" + "blah";
    GetOpOfBarePath("add");
    assert "/ops/add" == OpsPrefix + "add";
    GetOpRejects("/ops/");
  }

  // ---------------------------------------------------------------------------
  // getInt

  /** `getInt`: the key must be present with exactly one value, which is parsed as a
      base-10 int64. */
  function GetInt(form: Values, key: string): Result<int64, BuildError> {
    if key !in form then Failure(NoOperand)
    else if |form[key]| != 1 then Failure(InvalidValue(key))
    else
      match ParseInt(form[key][0])
      case Success(v) => Success(v)
      case Failure(e) => Failure(NumError(form[key][0], e))
  }

  /** A value read by GetInt was the only value under its key, written as a decimal
      literal of that value. */
  lemma GetIntSuccess(form: Values, key: string)
    ensures GetInt(form, key).Success? ==>
      && key in form && |form[key]| == 1
      && IsDecimalLiteral(form[key][0])
      && LiteralValue(form[key][0]) == GetInt(form, key).value
  {
  }

  /** Conversely, a single value that is a decimal literal in the int64 range is read as its
      value, whatever its sign or leading zeros ("+7", "007"). */
  lemma GetIntLiteral(form: Values, key: string)
    requires key in form && |form[key]| == 1 && IsDecimalLiteral(form[key][0])
    requires MinInt64 <= LiteralValue(form[key][0]) <= MaxInt64
    ensures GetInt(form, key) == Success(LiteralValue(form[key][0]))
  {
    ParseIntAccepts(form[key][0]);
  }

  /** GetInt reads back any int64 that was written under the key with FormatInt. */
  lemma GetIntFormatInt(form: Values, key: string, v: int64)
    requires key in form && form[key] == [FormatInt(v)]
    ensures GetInt(form, key) == Success(v)
  {
    ParseIntFormatInt(v);
  }

  /** The cases of the package's getInt test. */
  lemma GetIntTestCases()
    ensures GetInt(map[], "foo") == Failure(NoOperand)
    ensures GetInt(map["foo" := ["3"]], "foo") == Success(3)
    ensures GetInt(map["foo" := ["int", "5"]], "foo").Failure?
  {
  }

  // ---------------------------------------------------------------------------
  // BuildOperation

  /** What BuildOperation returns: on GET both form operands in turn, stopping at the first
      failure with what was filled so far; on POST the decoded body; on any other method
      the zero operands and no error. */
  function OperationFor(op: string, httpMethod: string, form: Values, body: Result<Operands, string>): Built {
    var oper := Operation(0, 0, op, 0);
    if httpMethod == MethodGet then
      match GetInt(form, Opand1)
      case Failure(e) => Built(oper, Some(e))
      case Success(v1) =>
        match GetInt(form, Opand2)
        case Failure(e) => Built(oper.(operand1 := v1), Some(e))
        case Success(v2) => Built(oper.(operand1 := v1, operand2 := v2), None)
    else if httpMethod == MethodPost then
      match body
      case Failure(d) => Built(oper, Some(DecodeFailure(d)))
      case Success(v) => Built(oper.(operand1 := v.operand1, operand2 := v.operand2), None)
    else Built(oper, None)
  }

  /** `BuildOperation`, filling the operation field by field with early returns. */
  method BuildOperation(op: string, httpMethod: string, form: Values, body: Result<Operands, string>)
    returns (oper: Operation, err: Option<BuildError>)
    ensures Built(oper, err) == OperationFor(op, httpMethod, form, body)
  {
    oper := Operation(0, 0, op, 0);
    if httpMethod == MethodGet {
      var val := GetInt(form, Opand1);
      if val.Failure? {
        return oper, Some(val.error);
      }
      oper := oper.(operand1 := val.value);
      val := GetInt(form, Opand2);
      if val.Failure? {
        return oper, Some(val.error);
      }
      oper := oper.(operand2 := val.value);
    } else if httpMethod == MethodPost {
      if body.Failure? {
        return oper, Some(DecodeFailure(body.error));
      }
      oper := oper.(operand1 := body.value.operand1, operand2 := body.value.operand2);
    } else {
      return oper, None;
    }
    return oper, None;
  }

  /** The operation always carries the requested name and a zero result. */
  lemma BuildKeepsName(op: string, httpMethod: string, form: Values, body: Result<Operands, string>)
    ensures OperationFor(op, httpMethod, form, body).oper.oper == op
    ensures OperationFor(op, httpMethod, form, body).oper.result == 0
  {
  }

  /** On GET the build succeeds exactly when both operands can be read, and then holds them;
      a failing first operand is reported before the second is looked at. */
  lemma BuildFromForm(op: string, form: Values, body: Result<Operands, string>)
    ensures var b := OperationFor(op, MethodGet, form, body);
      && (b.err.None? <==> GetInt(form, Opand1).Success? && GetInt(form, Opand2).Success?)
      && (b.err.None? ==> b.oper.operand1 == GetInt(form, Opand1).value
                          && b.oper.operand2 == GetInt(form, Opand2).value)
      && (GetInt(form, Opand1).Failure? ==> b.err == Some(GetInt(form, Opand1).error))
  {
  }

  /** A GET whose form holds operand1 and operand2 written as decimals builds exactly them. */
  lemma BuildFromFormValues(op: string, form: Values, a: int64, b: int64, body: Result<Operands, string>)
    requires Opand1 in form && form[Opand1] == [FormatInt(a)]
    requires Opand2 in form && form[Opand2] == [FormatInt(b)]
    ensures OperationFor(op, MethodGet, form, body) == Built(Operation(a, b, op, 0), None)
  {
    GetIntFormatInt(form, Opand1, a);
    GetIntFormatInt(form, Opand2, b);
  }

  /** On POST the operands are the decoded ones, and a decoding failure is reported. */
  lemma BuildFromBody(op: string, form: Values, body: Result<Operands, string>)
    ensures var b := OperationFor(op, MethodPost, form, body);
      && (b.err.None? <==> body.Success?)
      && (body.Success? ==> b.oper == Operation(body.value.operand1, body.value.operand2, op, 0))
      && (body.Failure? ==> b.err == Some(DecodeFailure(body.error)))
  {
  }

  /** Any method other than GET and POST yields zero operands and no error. */
  lemma BuildOtherMethod(op: string, httpMethod: string, form: Values, body: Result<Operands, string>)
    requires httpMethod != MethodGet && httpMethod != MethodPost
    ensures OperationFor(op, httpMethod, form, body) == Built(Operation(0, 0, op, 0), None)
  {
  }

  /** The cases of the package's BuildOperation test. */
  lemma BuildTestCases(body: Result<Operands, string>)
    ensures OperationFor(OpAdd, MethodGet, map[], body).err.Some?
    ensures OperationFor(OpAdd, MethodGet, map[Opand1 := ["3"], Opand2 := ["4"]], body).err.None?
    ensures OperationFor(OpAdd, MethodPost, map[], Failure("EOF")).err.Some?
    ensures OperationFor(OpAdd, MethodPost, map[], Success(Operands(3, 5))).oper.operand2 == 5
  {
  }

  // ---------------------------------------------------------------------------
  // SendOperationResult

  /** The result switch of `SendOperationResult`: add and subtract use int64 arithmetic,
      which wraps on overflow; echo gives 0; any other name leaves the result alone. */
  function ComputeResult(op: Operation): (r: Operation)
    ensures r.operand1 == op.operand1 && r.operand2 == op.operand2 && r.oper == op.oper
    ensures op.oper == OpEcho ==> r.result == 0
    ensures op.oper !in {OpAdd, OpSubtract, OpEcho} ==> r == op
  {
    if op.oper == OpAdd then op.(result := Add(op.operand1, op.operand2))
    else if op.oper == OpSubtract then op.(result := Sub(op.operand1, op.operand2))
    else if op.oper == OpEcho then op.(result := 0)
    else op
  }

  /** add gives the sum and subtract the difference, each taken modulo 2^64 into the int64
      range, so exact whenever the exact value fits. */
  lemma ResultSwitch(op: Operation)
    ensures op.oper == OpAdd ==> (ComputeResult(op).result - (op.operand1 + op.operand2)) % TwoTo64 == 0
    ensures op.oper == OpAdd && MinInt64 <= op.operand1 + op.operand2 <= MaxInt64 ==>
      ComputeResult(op).result == op.operand1 + op.operand2
    ensures op.oper == OpSubtract ==> (ComputeResult(op).result - (op.operand1 - op.operand2)) % TwoTo64 == 0
    ensures op.oper == OpSubtract && MinInt64 <= op.operand1 - op.operand2 <= MaxInt64 ==>
      ComputeResult(op).result == op.operand1 - op.operand2
  {
  }

  /** Subtracting the second operand from a sum gives the first operand back, overflow or not. */
  lemma SubtractUndoesAdd(a: int64, b: int64)
    ensures var sum := ComputeResult(Operation(a, b, OpAdd, 0)).result;
      ComputeResult(Operation(sum, b, OpSubtract, 0)).result == a
  {
  }

  /** An `error` operation that got this far keeps the zero result it was built with. */
  lemma ErrorResultStaysZero(httpMethod: string, form: Values, body: Result<Operands, string>)
    ensures ComputeResult(OperationFor(OpError, httpMethod, form, body).oper).result == 0
  {
  }

  // ---------------------------------------------------------------------------
  // isJsonContent

  /** `isJsonContent`: the media type before the first ';', trimmed and lower-cased, is
      "application/json"; an absent header is not JSON. */
  predicate IsJsonContent(contentType: string) {
    contentType != "" && ToLower(TrimSpace(BeforeFirst(contentType, ';'))) == JsonMediaType
  }

  lemma JsonMediaTypeIsLowerCase()
    ensures forall i :: 0 <= i < |JsonMediaType| ==> 'a' <= JsonMediaType[i] <= 'z' || JsonMediaType[i] == '/'
  {
  }

  /** The media type itself is recognised; an absent header is not. */
  lemma JsonContentCanonical()
    ensures IsJsonContent(JsonMediaType)
    ensures !IsJsonContent("")
  {
    JsonMediaTypeIsLowerCase();
    LowerCaseWordIsNormal(JsonMediaType);
  }

  /** Parameters after the first ';' (a charset, say) make no difference. */
  lemma JsonContentIgnoresParameters(mediaType: string, parameters: string)
    requires ';' !in mediaType
    ensures IsJsonContent(mediaType + ";" + parameters) == IsJsonContent(mediaType)
  {
    BeforeFirstOfJoin(mediaType, ';', parameters);
  }

  /** White space in front of the media type makes no difference. */
  lemma JsonContentIgnoresLeadingSpace(c: char, contentType: string)
    requires IsSpace(c)
    ensures IsJsonContent([c] + contentType) == IsJsonContent(contentType)
  {
  }

  /** The media type is compared without regard to case: two header values that lower-case
      to the same text are both JSON or both not. */
  lemma JsonContentIgnoresCase(a: string, b: string)
    requires ToLower(a) == ToLower(b)
    ensures IsJsonContent(a) == IsJsonContent(b)
  {
    ToLowerBeforeFirst(a);
    ToLowerTrimSpace(BeforeFirst(a, ';'));
    ToLowerBeforeFirst(b);
    ToLowerTrimSpace(BeforeFirst(b, ';'));
  }

  // ---------------------------------------------------------------------------
  // The list branch

  /** The `{data: arg}` objects for `args`, in order. */
  function ListItems(args: seq<string>): seq<ListObject> {
    if args == [] then [] else ListItems(args[..|args| - 1]) + [ListObject(args[|args| - 1])]
  }

  /** There is one object per argument, at the argument's position, holding it. */
  lemma {:induction false} ListItemsData(args: seq<string>)
    ensures |ListItems(args)| == |args|
    ensures forall i :: 0 <= i < |args| ==> ListItems(args)[i].data == args[i]
  {
    if args != [] {
      ListItemsData(args[..|args| - 1]);
    }
  }

  /** The loop that appends one `{data: arg}` per argument to `returnData`. */
  method ListObjects(args: seq<string>) returns (returnData: seq<ListObject>)
    ensures returnData == ListItems(args)
  {
    returnData := [];
    for i := 0 to |args|
      invariant returnData == ListItems(args[..i])
    {
      assert args[..i + 1][..i] == args[..i];
      returnData := returnData + [ListObject(args[i])];
    }
    assert args[..|args|] == args;
  }

  // ---------------------------------------------------------------------------
  // ServeHTTP

  /** `http.Error(w, msg, code)` on a fresh response. */
  function ErrorResponse(msg: string, code: nat): Response<Chunk> {
    Response(code, [Text(msg + "\n")])
  }

  /** The request got past the form step: its body is JSON, or its form parsed. */
  predicate FormParsed(req: Request) {
    IsJsonContent(req.contentType) || req.form.Success?
  }

  /** The form the operands are read from: `ParseForm`'s result, or nothing at all when
      the body is JSON and the form was never parsed. */
  function EffectiveForm(req: Request): Values
    requires FormParsed(req)
  {
    if IsJsonContent(req.contentType) then map[] else req.form.value
  }

  /** The query the `list` branch reads: the path's parameter text if there is one, else
      the URL's own query. */
  function ListQuery(params: string, req: Request, parseQuery: string -> Result<Values, string>): Result<Values, string> {
    if params != "" then parseQuery(params) else Success(req.query)
  }

  /** The `arg` values of a parsed query; none when the key is absent. */
  function Args(query: Values): seq<string> {
    if ArgKey in query then query[ArgKey] else []
  }

  /** What the add, subtract and echo branch sends for a built operation. */
  function OperationResponse(b: Built): Response<Chunk> {
    var sent := OperationJson(ComputeResult(b.oper));
    // No return after the 400: the operation is still written after the error text.
    if b.err.Some? then
      Response(StatusBadRequest, [Text("Failure in arguments: " + b.err.value.Message() + "\n"), sent])
    else Response(StatusOK, [sent])
  }

  /** The add, subtract and echo branch: build the operation, then send it with its result. */
  function ServeOperation(op: string, req: Request): Response<Chunk>
    requires FormParsed(req)
  {
    OperationResponse(OperationFor(op, req.httpMethod, EffectiveForm(req), req.body))
  }

  /** The list branch: one `{data: arg}` per `arg` value of the query. */
  function ServeList(params: string, req: Request, parseQuery: string -> Result<Values, string>): Response<Chunk> {
    match ListQuery(params, req, parseQuery)
    case Failure(e) => ErrorResponse("Bad URL parameters: " + e, StatusBadRequest)
    case Success(parsed) =>
      if |Args(parsed)| == 0 then ErrorResponse("Need arguments in arg", StatusBadRequest)
      else Response(StatusOK, [ListJson(ListItems(Args(parsed)))])
  }

  /** The whole response of `ServeHTTP`. `parseQuery` stands for `url.ParseQuery`. */
  function Serve(req: Request, parseQuery: string -> Result<Values, string>): Response<Chunk> {
    if !IsJsonContent(req.contentType) && req.form.Failure? then
      ErrorResponse("Unable to parse form: " + req.form.error, StatusBadRequest)
    else
      match GetOp(req.path)
      case Failure(_) => ErrorResponse("Invalid operation in " + req.path, StatusBadRequest)
      case Success(OpPath(op, params)) =>
        if op == OpError then ErrorResponse("User requested error", StatusInternalServerError)
        else if op == OpAdd || op == OpSubtract || op == OpEcho then ServeOperation(op, req)
        else if op == OpList then ServeList(params, req, parseQuery)
        else Response(StatusOK, [Text(HelpList)])
  }

  /** `http.Error`: the status, then the message and a newline. */
  method HttpError(w: ResponseRecorder<Chunk>, msg: string, code: nat)
    requires 100 <= code <= 999
    modifies w
    ensures w.status == if old(w.status) == 0 then code else old(w.status)
    ensures w.body == old(w.body) + [Text(msg + "\n")]
  {
    w.WriteHeader(code);
    w.Write(Text(msg + "\n"));
  }

  /** `SendOperationResult`: computes the result and writes the operation as JSON. */
  method SendOperationResult(op: Operation, w: ResponseRecorder<Chunk>)
    modifies w
    ensures w.status == if old(w.status) == 0 then StatusOK else old(w.status)
    ensures w.body == old(w.body) + [OperationJson(ComputeResult(op))]
  {
    var sent := ComputeResult(op);
    w.Write(OperationJson(sent));
  }

  /** `ServeHTTP`, writing to the response step by step; what it leaves is `Serve`'s response. */
  method ServeHTTP(w: ResponseRecorder<Chunk>, req: Request, parseQuery: string -> Result<Values, string>)
    modifies w
    ensures w.status == if old(w.status) == 0 then Serve(req, parseQuery).status else old(w.status)
    ensures w.body == old(w.body) + Serve(req, parseQuery).body
    ensures old(w.status) == 0 && old(w.body) == [] ==> w.Recorded() == Serve(req, parseQuery)
  {
    ServeStatusCodes(req, parseQuery);
    var form: Values := map[];
    if !IsJsonContent(req.contentType) {
      if req.form.Failure? {
        HttpError(w, "Unable to parse form: " + req.form.error, StatusBadRequest);
        return;
      }
      form := req.form.value;
    }
    var path := GetOp(req.path);
    if path.Failure? {
      HttpError(w, "Invalid operation in " + req.path, StatusBadRequest);
      return;
    }
    var op, params := path.value.op, path.value.params;
    if op == OpError {
      HttpError(w, "User requested error", StatusInternalServerError);
      return;
    } else if op == OpAdd || op == OpSubtract || op == OpEcho {
      assert ServeOperation(op, req) == OperationResponse(OperationFor(op, req.httpMethod, form, req.body));
      ServeOperationHTTP(w, op, req.httpMethod, form, req.body);
    } else if op == OpList {
      ServeListHTTP(w, params, req, parseQuery);
    } else {
      w.Write(Text(HelpList));
    }
  }

  /** The add, subtract and echo branch of `ServeHTTP`, with the form already read. */
  method ServeOperationHTTP(w: ResponseRecorder<Chunk>, op: string, httpMethod: string, form: Values, body: Result<Operands, string>)
    modifies w
    ensures w.status == if old(w.status) == 0 then OperationResponse(OperationFor(op, httpMethod, form, body)).status else old(w.status)
    ensures w.body == old(w.body) + OperationResponse(OperationFor(op, httpMethod, form, body)).body
  {
    var operation, err := BuildOperation(op, httpMethod, form, body);
    if err.Some? {
      HttpError(w, "Failure in arguments: " + err.value.Message(), StatusBadRequest);
    }
    SendOperationResult(operation, w);
  }

  /** The list branch of `ServeHTTP`. */
  method ServeListHTTP(w: ResponseRecorder<Chunk>, params: string, req: Request, parseQuery: string -> Result<Values, string>)
    modifies w
    ensures w.status == if old(w.status) == 0 then ServeList(params, req, parseQuery).status else old(w.status)
    ensures w.body == old(w.body) + ServeList(params, req, parseQuery).body
  {
    var parsed := Success(req.query);
    if params != "" {
      parsed := parseQuery(params);
    }
    if parsed.Failure? {
      HttpError(w, "Bad URL parameters: " + parsed.error, StatusBadRequest);
      return;
    }
    var args := if ArgKey in parsed.value then parsed.value[ArgKey] else [];
    if |args| == 0 {
      HttpError(w, "Need arguments in arg", StatusBadRequest);
      return;
    }
    var returnData := ListObjects(args);
    w.Write(ListJson(returnData));
  }

  // ---------------------------------------------------------------------------
  // What the dispatch promises

  /** A form that cannot be parsed stops a non-JSON request with 400 before anything else. */
  lemma ServeFormError(req: Request, parseQuery: string -> Result<Values, string>)
    requires !FormParsed(req)
    ensures Serve(req, parseQuery) == ErrorResponse("Unable to parse form: " + req.form.error, StatusBadRequest)
  {
  }

  /** A path the pattern rejects is answered with 400. */
  lemma ServeBadPath(req: Request, parseQuery: string -> Result<Values, string>)
    requires FormParsed(req) && GetOp(req.path).Failure?
    ensures Serve(req, parseQuery) == ErrorResponse("Invalid operation in " + req.path, StatusBadRequest)
  {
  }

  /** "/ops/" names no operation: it is a 400 and never reaches the list of operations. */
  lemma ServeOpsRoot(req: Request, parseQuery: string -> Result<Values, string>)
    requires FormParsed(req) && req.path == OpsPrefix
    ensures Serve(req, parseQuery).status == StatusBadRequest
    ensures Serve(req, parseQuery).body != [Text(HelpList)]
  {
  }

  /** Once the form step has passed (JSON body or parsed form), `error` is answered with 500
      and a fixed text, whatever the method, form, body or query. */
  lemma ServeErrorOp(req: Request, parseQuery: string -> Result<Values, string>)
    requires FormParsed(req) && GetOp(req.path).Success? && GetOp(req.path).value.op == OpError
    ensures Serve(req, parseQuery) == ErrorResponse("User requested error", StatusInternalServerError)
  {
  }

  /** add, subtract and echo: 200 with the computed operation when the operands were read;
      otherwise 400 with the error text, followed (the handler does not return after the
      error) by the operation as far as it was built. */
  lemma ServeArithmetic(req: Request, parseQuery: string -> Result<Values, string>)
    requires FormParsed(req) && GetOp(req.path).Success?
    requires GetOp(req.path).value.op in {OpAdd, OpSubtract, OpEcho}
    ensures var op := GetOp(req.path).value.op;
      var b := OperationFor(op, req.httpMethod, EffectiveForm(req), req.body);
      var r := Serve(req, parseQuery);
      && (r.status == StatusOK <==> b.err.None?)
      && (b.err.None? ==> r.body == [OperationJson(ComputeResult(b.oper))])
      && (b.err.Some? ==>
            && r.status == StatusBadRequest
            && r.body == [Text("Failure in arguments: " + b.err.value.Message() + "\n"),
                          OperationJson(ComputeResult(b.oper))])
  {
  }

  /** "/ops/" followed by add, subtract or echo reaches that operation's branch. */
  lemma ArithmeticRoute(req: Request, parseQuery: string -> Result<Values, string>, op: string)
    requires FormParsed(req) && op in {OpAdd, OpSubtract, OpEcho} && req.path == OpsPrefix + op
    ensures Serve(req, parseQuery) == ServeOperation(op, req)
  {
    GetOpOfBarePath(op);
  }

  /** GET /ops/add with both operands in the form answers 200 with their int64 sum. */
  lemma ServeAddFromForm(req: Request, parseQuery: string -> Result<Values, string>, form: Values, a: int64, b: int64)
    requires req.path == "/ops/add" && req.httpMethod == MethodGet
    requires !IsJsonContent(req.contentType) && req.form == Success(form)
    requires Opand1 in form && form[Opand1] == [FormatInt(a)]
    requires Opand2 in form && form[Opand2] == [FormatInt(b)]
    ensures Serve(req, parseQuery) == Response(StatusOK, [OperationJson(Operation(a, b, OpAdd, Add(a, b)))])
  {
    ArithmeticRoute(req, parseQuery, OpAdd);
    BuildFromFormValues(OpAdd, form, a, b, req.body);
  }

  /** A JSON POST of {"operand1":3,"operand2":5} to /ops/add answers 200 with result 8,
      whatever parameters or letter case the JSON content type is written with. */
  lemma ServeAddFromBody(req: Request, parseQuery: string -> Result<Values, string>)
    requires req.path == "/ops/add" && req.httpMethod == MethodPost
    requires IsJsonContent(req.contentType) && req.body == Success(Operands(3, 5))
    ensures Serve(req, parseQuery) == Response(StatusOK, [OperationJson(Operation(3, 5, OpAdd, 8))])
  {
    assert req.path == OpsPrefix + OpAdd;
    ArithmeticRoute(req, parseQuery, OpAdd);
    BuildFromBody(OpAdd, EffectiveForm(req), req.body);
  }

  /** A GET that declares a JSON body never has its form parsed, so its operands are missing. */
  lemma ServeJsonGet(req: Request, parseQuery: string -> Result<Values, string>)
    requires IsJsonContent(req.contentType) && req.httpMethod == MethodGet
    requires GetOp(req.path).Success? && GetOp(req.path).value.op in {OpAdd, OpSubtract, OpEcho}
    ensures Serve(req, parseQuery).status == StatusBadRequest
    ensures Serve(req, parseQuery).body[0] == Text("Failure in arguments: no operand\n")
  {
    ServeArithmetic(req, parseQuery);
    assert GetInt(map[], Opand1) == Failure(NoOperand);
  }

  /** `list` with no `arg` value is answered with 400. */
  lemma ServeListNoArgs(req: Request, parseQuery: string -> Result<Values, string>)
    requires FormParsed(req) && GetOp(req.path).Success? && GetOp(req.path).value.op == OpList
    requires var q := ListQuery(GetOp(req.path).value.params, req, parseQuery);
      q.Success? && |Args(q.value)| == 0
    ensures Serve(req, parseQuery) == ErrorResponse("Need arguments in arg", StatusBadRequest)
  {
  }

  /** `list` answers 200 with one `{data: arg}` per `arg` value, in the order given. */
  lemma ServeListArgs(req: Request, parseQuery: string -> Result<Values, string>)
    requires FormParsed(req) && GetOp(req.path).Success? && GetOp(req.path).value.op == OpList
    requires var q := ListQuery(GetOp(req.path).value.params, req, parseQuery);
      q.Success? && |Args(q.value)| > 0
    ensures var args := Args(ListQuery(GetOp(req.path).value.params, req, parseQuery).value);
      var r := Serve(req, parseQuery);
      && r.status == StatusOK && |r.body| == 1 && r.body[0].ListJson?
      && |r.body[0].items| == |args|
      && forall i :: 0 <= i < |args| ==> r.body[0].items[i].data == args[i]
  {
    ListItemsData(Args(ListQuery(GetOp(req.path).value.params, req, parseQuery).value));
  }

  /** Any other operation name is answered with the fixed list of the known operations. */
  lemma ServeUnknownOp(req: Request, parseQuery: string -> Result<Values, string>)
    requires FormParsed(req) && GetOp(req.path).Success?
    requires GetOp(req.path).value.op !in {OpAdd, OpSubtract, OpEcho, OpError, OpList}
    ensures Serve(req, parseQuery) == Response(StatusOK, [Text(HelpList)])
  {
  }

  /** Every answer is 200, 400 or 500, and it is 500 exactly for the `error` operation on a
      request that got past the form step. */
  lemma ServeStatusCodes(req: Request, parseQuery: string -> Result<Values, string>)
    ensures var r := Serve(req, parseQuery);
      && r.status in {StatusOK, StatusBadRequest, StatusInternalServerError}
      && (r.status == StatusInternalServerError <==>
            FormParsed(req) && GetOp(req.path).Success? && GetOp(req.path).value.op == OpError)
  {
  }

  /** A `list` request is answered by the list branch. */
  lemma ServeListRoute(req: Request, parseQuery: string -> Result<Values, string>)
    requires FormParsed(req) && GetOp(req.path).Success? && GetOp(req.path).value.op == OpList
    ensures Serve(req, parseQuery) == ServeList(GetOp(req.path).value.params, req, parseQuery)
  {
  }

  /** The paths of the package's list test name the `list` operation. */
  lemma ListTestPath(path: string, params: string)
    requires '\n' !in params
    requires path == if params == "" then "/ops/list" else "/ops/list?" + params
    ensures GetOp(path) == Success(OpPath(OpList, params))
  {
    if params == "" {
      GetOpOfBarePath(OpList);
      assert path == OpsPrefix + OpList;
    } else {
      GetOpOfPath(OpList, params);
      assert path == OpsPrefix + OpList + "?" + params;
    }
  }

  /** A GET of "/ops/list", with `params` after a '?' when there are any, reaches the
      list branch with those parameters. */
  lemma ListTestRoute(req: Request, parseQuery: string -> Result<Values, string>, params: string)
    requires FormParsed(req) && '\n' !in params
    requires req.path == if params == "" then "/ops/list" else "/ops/list?" + params
    ensures Serve(req, parseQuery) == ServeList(params, req, parseQuery)
  {
    ListTestPath(req.path, params);
    ServeListRoute(req, parseQuery);
  }

  /** The list branch when the parameters parse to the `arg` values `args`. */
  lemma ListOfArgs(params: string, req: Request, parseQuery: string -> Result<Values, string>, args: seq<string>)
    requires params != "" && parseQuery(params) == Success(map[ArgKey := args]) && args != []
    ensures ServeList(params, req, parseQuery) == Response(StatusOK, [ListJson(ListItems(args))])
  {
  }

  /** The cases of the package's list test, where the query sits in the path: without
      arguments the list route is a bad request. */
  lemma ListTestNoArgs(req: Request, parseQuery: string -> Result<Values, string>)
    requires req.path == "/ops/list" && req.httpMethod == MethodGet
    requires req.contentType == "" && req.form == Success(map[]) && req.query == map[]
    ensures Serve(req, parseQuery) == ErrorResponse("Need arguments in arg", StatusBadRequest)
  {
    ListTestRoute(req, parseQuery, "");
  }

  /** One argument in the path's query gives a one-element list. */
  lemma ListTestOneArg(req: Request, parseQuery: string -> Result<Values, string>)
    requires req.path == "/ops/list?arg=1" && req.httpMethod == MethodGet
    requires req.contentType == "" && req.form == Success(map[])
    requires parseQuery("arg=1") == Success(map[ArgKey := ["1"]])
    ensures Serve(req, parseQuery) == Response(StatusOK, [ListJson([ListObject("1")])])
  {
    ListTestRoute(req, parseQuery, "arg=1");
    ListOfArgs("arg=1", req, parseQuery, ["1"]);
    assert ListItems(["1"]) == [ListObject("1")];
  }

  /** Repeated arguments are listed in order. */
  lemma ListTestTwoArgs(req: Request, parseQuery: string -> Result<Values, string>)
    requires req.path == "/ops/list?arg=2&arg=5" && req.httpMethod == MethodGet
    requires req.contentType == "" && req.form == Success(map[])
    requires parseQuery("arg=2&arg=5") == Success(map[ArgKey := ["2", "5"]])
    ensures Serve(req, parseQuery) == Response(StatusOK, [ListJson([ListObject("2"), ListObject("5")])])
  {
    ListTestRoute(req, parseQuery, "arg=2&arg=5");
    ListOfArgs("arg=2&arg=5", req, parseQuery, ["2", "5"]);
    assert ListItems(["2", "5"]) == [ListObject("2"), ListObject("5")] by {
      assert ["2", "5"][..1] == ["2"];
    }
  }
}
