# Operations and authorization handlers

A model of the decision logic of the two HTTP handlers of the `webserver` demo service.

**The operations handler** is mounted under `/ops/` (`webserver/ops/operations.go`). It works in five steps:
1. It parses the form unless the body is declared as JSON.
2. It splits the operation name off the URL path with the pattern `^/ops/([[:alnum:]]+)\??(.*)$`.
3. It answers `error` with 500.
4. It answers `add`, `subtract` and `echo` with the operation record and its result. The operands are read from the form (GET) or from the JSON body (POST). `add` and `subtract` use wrapping int64 arithmetic.
5. It answers `list` with one `{"data": arg}` object per `arg` query value. Any other name gets the JSON array of the known operation names.

**The authorization handler** is mounted under `/auth/` (`webserver/auth/authorization.go`). It accepts a request (202) when the first `Authorization` header value equals the expected value. The expected value is the first `Authorization` form value when that is non-empty, and `"default"` otherwise. Every other request gets 401.

## Files and modules

| File | What it holds |
|---|---|
| `wrappers.dfy` | `Option` and `Result`, which stand for Go's `(value, error)` pairs. |
| `go_int.dfy` | Go's `int64` and its wrapping `+` and `-`. |
| `strconv.dfy` | `strconv.ParseInt(s, 10, 64)`, with `FormatInt` as its inverse. |
| `go_strings.dfy` | `strings.ToLower`, `strings.TrimSpace`, `unicode.IsSpace` and the first field of `strings.Split`. |
| `http.dfy` | Status codes and `url.Values`/`http.Header`. The `ResponseRecorder` class models a response writer: the first status written wins, and the first body write implies 200. |
| `ops.dfy` | The operations handler. |
| `auth.dfy` | The authorization handler. |

The step-by-step parts of the source are imperative methods. Each is proved equal to a specification function, and the properties are proved about those functions.
- **`BuildOperation`** fills the operation field by field, with early returns. It is proved equal to `OperationFor`.
- **The `list` loop** appends with `for`. `ListObjects` is proved equal to `ListItems`.
- **`ServeHTTP`** writes to a `ResponseRecorder`. It is proved to leave `Serve`'s response, which is a pure function.

Because `ResponseRecorder` keeps the first status, a known quirk of the source follows from the model. After a failed operand read, the handler writes 400 and the error text but does not return (operations.go:172-175). So the response is 400, with the error text followed by the operation JSON.

`/ops/` names no operation. The pattern needs a non-empty name, so `GetOp` fails and the answer is 400, not the help array (`ServeOpsRoot`).

## Model

| member | source | states |
|---|---|---|
| GoInt.Wrap | webserver/ops/operations.go:123-125 | The int64 that 64-bit two's-complement arithmetic holds for an exact value: congruent to it modulo 2^64, and equal to it when it is in range. |
| GoInt.Add | webserver/ops/operations.go:123 | int64 `a + b`: the exact sum when it fits, otherwise the sum shifted by 2^64 down (overflow) or up (underflow). |
| GoInt.Sub | webserver/ops/operations.go:125 | int64 `a - b`: the exact difference when it fits, otherwise the difference shifted by 2^64. |
| GoInt.SubUndoesAdd | webserver/ops/operations.go:123-125 | Wrapping subtraction of `b` undoes wrapping addition of `b`, for every pair of int64 values. |
| GoInt.AddUndoesSub | webserver/ops/operations.go:123-125 | Wrapping addition of `b` undoes wrapping subtraction of `b`. |
| Strconv.LeadingDigits | webserver/ops/operations.go:79 | The length of the longest prefix of decimal digits: everything before it is a digit, and the character at it is not. |
| Strconv.ParseUint | webserver/ops/operations.go:79 | `strconv.ParseUint(s, 10, 64)`; its contract is carried by ParseUintOverflowFirst (overflow in the leading digit run wins over a later syntax error) and, through ParseInt, by ParseIntAccepts. |
| Strconv.ParseInt | webserver/ops/operations.go:79 | `strconv.ParseInt(s, 10, 64)`; its contract is carried by ParseIntAccepts (success if and only if an in-range decimal literal, with its value), ParseIntTooLarge and ParseIntFormatInt. |
| Strconv.FormatUint | webserver/ops/operations.go:79 | The decimal rendering of a natural number: non-empty, digits only, no leading zero, and its decimal value is the number. |
| Strconv.FormatInt | webserver/ops/operations.go:79 | The decimal rendering of an int64 is a decimal literal whose value is that int64. |
| Strconv.LeadingDigitsOfDigits | webserver/ops/operations.go:79 | A string made only of digits is read at its full length. |
| Strconv.DecimalPrefixMonotone | webserver/ops/operations.go:79 | The value of a digit string is at least the value of each of its prefixes. |
| Strconv.ParseIntAccepts | webserver/ops/operations.go:79 | `ParseInt` succeeds if and only if the text is an optional sign followed by digits and nothing else, and its value fits in int64; it then returns that value. |
| Strconv.ParseIntTooLarge | webserver/ops/operations.go:79 | A digit string whose value exceeds the int64 maximum fails with a range error, not a syntax error. |
| Strconv.ParseUintOverflowFirst | webserver/ops/operations.go:79 | A digit run whose value exceeds 2^64 - 1 gives a range error whatever follows it, because the parse stops at the overflow. |
| Strconv.ParseIntFormatInt | webserver/ops/operations.go:79 | `ParseInt` reads back every int64 that `FormatInt` writes. |
| GoStrings.LowerRune | webserver/ops/operations.go:144 | Lower-casing one character never yields an ASCII capital, maps white space to white space and nothing else to white space, and maps ';' to itself and nothing else to ';'. |
| GoStrings.IsSpace | webserver/ops/operations.go:144 | `unicode.IsSpace`: the Latin-1 spaces and the other White_Space characters; LowerRune's contract shows lower-casing preserves it both ways. |
| GoStrings.ToLower | webserver/ops/operations.go:144 | Lower-casing keeps the length. |
| GoStrings.ToLowerAt | webserver/ops/operations.go:144 | Lower-casing a string lowers each character in place. |
| GoStrings.TrimLeft | webserver/ops/operations.go:144 | What is left after removing leading white space is no longer than the input and does not start with white space. |
| GoStrings.TrimLeftRemovesSpace | webserver/ops/operations.go:144 | Removing leading white space leaves a suffix of the input, and every removed character is white space. |
| GoStrings.TrimRight | webserver/ops/operations.go:144 | What is left after removing trailing white space is no longer than the input and does not end with white space. |
| GoStrings.TrimRightRemovesSpace | webserver/ops/operations.go:144 | Removing trailing white space leaves a prefix of the input, and every removed character is white space. |
| GoStrings.TrimSpace | webserver/ops/operations.go:144 | `strings.TrimSpace`; its contract is carried by TrimLeft/TrimRight with their RemovesSpace lemmas, TrimSpaceLeadingSpace, TrimSpaceUnpadded and ToLowerTrimSpace. |
| GoStrings.BeforeFirst | webserver/ops/operations.go:144 | The first field of a split on `sep` is a prefix without `sep`, and it is followed by `sep` unless it is the whole string. |
| GoStrings.BeforeFirstOfJoin | webserver/ops/operations.go:144 | Splitting `x + sep + y` gives `x` when `x` has no `sep`, and a string without `sep` is its own first field. |
| GoStrings.TrimSpaceLeadingSpace | webserver/ops/operations.go:144 | A white-space character in front makes no difference to `TrimSpace`. |
| GoStrings.TrimSpaceUnpadded | webserver/ops/operations.go:144 | `TrimSpace` leaves a string alone when neither end is white space. |
| GoStrings.ToLowerUnchanged | webserver/ops/operations.go:144 | `ToLower` leaves a string alone when each of its characters is its own lower case. |
| GoStrings.LowerCaseWordIsNormal | webserver/ops/operations.go:144 | A word of lower-case ASCII letters and '/' passes through split, trim and lower-casing unchanged. |
| GoStrings.ToLowerBeforeFirst | webserver/ops/operations.go:144 | Lower-casing commutes with taking the text before the first ';'. |
| GoStrings.ToLowerTrimLeft | webserver/ops/operations.go:144 | Lower-casing commutes with removing leading white space. |
| GoStrings.ToLowerTrimRight | webserver/ops/operations.go:144 | Lower-casing commutes with removing trailing white space. |
| GoStrings.ToLowerTrimSpace | webserver/ops/operations.go:144 | Lower-casing commutes with `TrimSpace`. |
| Http.ResponseRecorder.constructor | webserver/ops/operations_test.go:125 | A fresh response has no status and an empty body. |
| Http.ResponseRecorder.WriteHeader | webserver/ops/operations.go:156 | The first status written is kept and later ones are ignored; the body is unchanged. |
| Http.ResponseRecorder.Write | webserver/ops/operations.go:138 | A write sends 200 if no status was sent yet, and appends to the body. |
| Ops.AlnumRun | webserver/ops/operations.go:17 | The group `[[:alnum:]]+` is greedy: the run it returns is all alphanumeric and is not followed by an alphanumeric character. |
| Ops.GetOp | webserver/ops/operations.go:54-61 | `GetOp`; its contract is carried by GetOpSound and GetOpComplete (it succeeds exactly when the pattern matches, with the longest name and the '?' skipped), GetOpOfPath, GetOpOfBarePath and GetOpRejects. |
| Ops.GetOpSound | webserver/ops/operations.go:54-61 | Every operation and parameter text that `GetOp` returns comes from a way of matching the path against the pattern: "/ops/", a non-empty alphanumeric name, an optional '?', and a tail without newline. |
| Ops.GetOpComplete | webserver/ops/operations.go:54-61 | Whenever the path can match the pattern, `GetOp` succeeds. Its name is the longest group of any match, and with that group the '?' is skipped when it is present. |
| Ops.GetOpOfPath | webserver/ops/operations.go:54-61 | Splitting "/ops/" + name + "?" + params gives the name and the params back. |
| Ops.GetOpOfBarePath | webserver/ops/operations.go:54-61 | Splitting "/ops/" + name gives the name and an empty parameter text. |
| Ops.GetOpRejects | webserver/ops/operations.go:56-58 | A path without the "/ops/" prefix, "/ops/" itself, or a path with no alphanumeric character right after the prefix, is rejected. |
| Ops.RegexpTestCases | webserver/ops/operations_test.go:22-23 | "/ops/foo" gives ("foo", ""), "/ops/foo?blah" gives ("foo", "blah"), "/ops/add" gives `add`, and "/ops/" is rejected. |
| Ops.GetIntSuccess | webserver/ops/operations.go:71-80 | A value that `getInt` reads was the only value under its key, and it was a decimal literal of that value. |
| Ops.GetInt | webserver/ops/operations.go:71-80 | `getInt`; its contract is carried by GetIntSuccess and GetIntLiteral (success exactly for a single in-range decimal literal, with its value), GetIntFormatInt and GetIntTestCases. |
| Ops.GetIntLiteral | webserver/ops/operations.go:71-80 | A single value under the key that is a decimal literal in the int64 range is read as its value, whatever its sign or leading zeros ("+7", "007"). |
| Ops.GetIntFormatInt | webserver/ops/operations.go:71-80 | `getInt` reads back any int64 stored as the only value under its key. |
| Ops.GetIntTestCases | webserver/ops/operations_test.go:74-76 | An absent key fails with "no operand", `{"foo": ["3"]}` gives 3, and two values under the key fail. |
| Ops.BuildOperation | webserver/ops/operations.go:83-117 | Filling the operation field by field, with early returns, gives exactly `OperationFor`'s operation and error. |
| Ops.OperationFor | webserver/ops/operations.go:83-117 | What BuildOperation returns; its contract is carried by BuildKeepsName, BuildFromForm, BuildFromFormValues, BuildFromBody, BuildOtherMethod and BuildTestCases. |
| Ops.BuildKeepsName | webserver/ops/operations.go:84-86 | The built operation always carries the requested name and a zero result. |
| Ops.BuildFromForm | webserver/ops/operations.go:90-100 | On GET the build succeeds if and only if both operands can be read, and then holds both. A failure on operand1 is the error reported. |
| Ops.BuildFromFormValues | webserver/ops/operations.go:90-100 | A GET whose form holds both operands as decimals builds exactly those operands, with no error. |
| Ops.BuildFromBody | webserver/ops/operations.go:101-111 | On POST the build succeeds if and only if the body decodes, and then holds the decoded operands. A decode failure is reported as such. |
| Ops.BuildOtherMethod | webserver/ops/operations.go:112-113 | Any method other than GET and POST gives operands 0 and 0 with no error. |
| Ops.BuildTestCases | webserver/ops/operations_test.go:164-165 | An empty form fails; operands "3" and "4" succeed; a body that does not decode fails; `{"operand1":3,"operand2":5}` gives operand2 = 5. |
| Ops.ComputeResult | webserver/ops/operations.go:120-131 | The result switch keeps both operands and the name. echo gives result 0, and any name other than add, subtract and echo leaves the operation unchanged. |
| Ops.ResultSwitch | webserver/ops/operations.go:121-125 | add gives the sum and subtract the difference, both congruent modulo 2^64 and exact whenever the exact value fits in int64. |
| Ops.SubtractUndoesAdd | webserver/ops/operations.go:121-125 | Subtracting operand2 from an add result gives operand1 back, overflow or not. |
| Ops.ErrorResultStaysZero | webserver/ops/operations.go:128-129 | An `error` operation keeps the zero result it was built with. |
| Ops.IsJsonContent | webserver/ops/operations.go:141-148 | `isJsonContent`; its contract is carried by JsonContentCanonical, JsonContentIgnoresParameters, JsonContentIgnoresLeadingSpace and JsonContentIgnoresCase. |
| Ops.JsonContentCanonical | webserver/ops/operations.go:141-148 | "application/json" is JSON content; an absent header (empty text) is not. |
| Ops.JsonContentIgnoresParameters | webserver/ops/operations.go:144 | Parameters after the first ';' do not change whether the content is JSON. |
| Ops.JsonContentIgnoresLeadingSpace | webserver/ops/operations.go:144 | Leading white space does not change whether the content is JSON. |
| Ops.JsonContentIgnoresCase | webserver/ops/operations.go:144-145 | Two header values that lower-case to the same text are both JSON or both not. |
| Ops.ListItemsData | webserver/ops/operations.go:191-194 | There is one list object per argument, at the argument's position, holding it. |
| Ops.ListItems | webserver/ops/operations.go:191-194 | The `{data: arg}` objects of the arguments; its contract is carried by ListItemsData and by ListObjects, the loop proved equal to it. |
| Ops.ListObjects | webserver/ops/operations.go:191-194 | The append loop builds exactly `ListItems` of the arguments. |
| Ops.HttpError | webserver/ops/operations.go:156 | `http.Error` sets the status unless one was sent, and appends the message and a newline. |
| Ops.SendOperationResult | webserver/ops/operations.go:120-139 | Sends 200 unless a status was sent, and appends the operation with its computed result. |
| Ops.ServeHTTP | webserver/ops/operations.go:150-203 | The handler's writes leave `Serve`'s status, unless a status was already sent, and `Serve`'s body appended. On a fresh response, the recorded response is `Serve`'s. |
| Ops.ServeOperationHTTP | webserver/ops/operations.go:170-175 | The add/subtract/echo branch writes 400 and the error text when the build failed, then the operation, as `OperationResponse` of the build. |
| Ops.ServeListHTTP | webserver/ops/operations.go:176-199 | The list branch's writes are those of `ServeList`. |
| Ops.Serve | webserver/ops/operations.go:150-203 | The whole response of `ServeHTTP`; its contract is carried by ServeHTTP and the dispatch lemmas ServeFormError through ListTestTwoArgs below. |
| Ops.OperationResponse | webserver/ops/operations.go:171-175 | The add/subtract/echo answer for a built operation; its contract is carried by ServeArithmetic (400 with the error text followed by the operation, else 200 with the operation) and ServeOperationHTTP. |
| Ops.ServeList | webserver/ops/operations.go:176-199 | The list branch's answer; its contract is carried by ServeListNoArgs, ServeListArgs, ListOfArgs and ServeListHTTP. |
| Ops.ServeFormError | webserver/ops/operations.go:152-158 | A non-JSON request whose form cannot be parsed gets 400 with "Unable to parse form: " and the error, before anything else. |
| Ops.ServeBadPath | webserver/ops/operations.go:161-165 | A path the pattern rejects gets 400 with "Invalid operation in " and the path. |
| Ops.ServeOpsRoot | webserver/ops/operations.go:161-165 | "/ops/" gets 400 and never the help array. |
| Ops.ServeErrorOp | webserver/ops/operations.go:167-169 | Once the form step has passed (JSON body or parsed form), `error` gets 500 with "User requested error", whatever the method, form, body or query. |
| Ops.ServeArithmetic | webserver/ops/operations.go:170-175 | add/subtract/echo: 200 if and only if the operands were read, with the computed operation as the body. Otherwise 400 with the error text followed by the computed operation. |
| Ops.ArithmeticRoute | webserver/ops/operations.go:170 | "/ops/add", "/ops/subtract" and "/ops/echo" reach the operation branch. |
| Ops.ServeAddFromForm | webserver/ops/operations.go:170-175 | GET /ops/add with both operands in the form gets 200 with the operands and their int64 sum. |
| Ops.ServeAddFromBody | webserver/ops/operations.go:170-175 | A JSON POST of operands 3 and 5 to /ops/add gets 200 with result 8. |
| Ops.ServeJsonGet | webserver/ops/operations.go:152-159 | A GET declaring a JSON body never has its form parsed, so it gets 400 with "no operand". |
| Ops.ServeListNoArgs | webserver/ops/operations.go:186-190 | `list` without `arg` values gets 400 with "Need arguments in arg". |
| Ops.ServeListArgs | webserver/ops/operations.go:186-199 | `list` with `arg` values gets 200 and one object per value, holding it, in order. |
| Ops.ServeUnknownOp | webserver/ops/operations.go:200-201 | Any other operation name gets 200 with the array of the four known names. |
| Ops.ServeStatusCodes | webserver/ops/operations.go:150-203 | Every answer is 200, 400 or 500, and it is 500 exactly for the `error` operation on a request that got past the form step. |
| Ops.ServeListRoute | webserver/ops/operations.go:176 | A `list` request is answered by the list branch with the path's parameters. |
| Ops.ListTestPath | webserver/ops/operations_test.go:119-121 | The list test's paths split into `list` and their query text. |
| Ops.ListTestRoute | webserver/ops/operations_test.go:119-121 | The list test's requests reach the list branch with their query text. |
| Ops.ListOfArgs | webserver/ops/operations.go:177-199 | Parameters that parse to the `arg` values `args` get 200 with `ListItems(args)`. |
| Ops.ListTestNoArgs | webserver/ops/operations_test.go:119 | GET /ops/list gets 400. |
| Ops.ListTestOneArg | webserver/ops/operations_test.go:120 | GET /ops/list?arg=1 gets 200 with `[{"data":"1"}]`. |
| Ops.ListTestTwoArgs | webserver/ops/operations_test.go:121 | GET /ops/list?arg=2&arg=5 gets 200 with `[{"data":"2"},{"data":"5"}]`. |
| Auth.ExpectedValue | webserver/auth/authorization.go:34-38 | The expected value is never empty. It is the first form value when that is non-empty, and otherwise "default". |
| Auth.Authorize | webserver/auth/authorization.go:27-46 | The answer is 202 or 401. It is 202 if and only if the header is present and its first value equals the expected value. 202 carries the success page; 401 carries "No Auth Header". |
| Auth.MissingHeaderRejected | webserver/auth/authorization.go:29-33 | Without the header the answer is 401, whatever the form holds. |
| Auth.EmptyHeaderRejected | webserver/auth/authorization.go:36-41 | An empty header value never passes. |
| Auth.DefaultAccepted | webserver/auth/authorization.go:34-43 | Without a usable form value, exactly the header value "default" passes. |
| Auth.OverrideReplacesDefault | webserver/auth/authorization.go:35-43 | A non-empty form value replaces the default: exactly that value passes. |
| Auth.FirstValuesOnly | webserver/auth/authorization.go:35-40 | Only the first header value and the first form value matter. |
| Auth.ExactMatchOnly | webserver/auth/authorization.go:40-43 | Any difference from the expected value, letter case included, gives 401 and the error text. |
| Auth.AuthTestCases | webserver/auth/authorization_test.go:60-63 | The four test cases give 401, 202, 401 and 202. A header "Default" without an override gives 401. |

## Left out

**Plumbing and parsing**
- The `net/http` plumbing is left out, because it is bootstrap and I/O:
  - `InstallHandlers`;
  - the mux;
  - the server in `webserver/cmd/server/main.go`;
  - the response headers (`content-type`, and what `http.Error` sets).
- `req.ParseForm`, `url.ParseQuery`, `req.URL.Query()` and the JSON decoding of the body are library code, so they are inputs to the model.
  - They appear as `Request.form`, the `parseQuery` parameter, `Request.query` and `Request.body`.
  - The model does not capture that `ParseForm` consumes a form body before a JSON decode could read it.
- JSON encoding is abstract: the `Chunk` values `OperationJson` and `ListJson` stand for the marshalled bytes.
  - Marshalling an `Operation` or a list of strings cannot fail, so the 500 branch at operations.go:133-136 is not modelled.
  - The same goes for the 400 branch at operations.go:196-198.

**Approximations**
- BuildError.Message: shows the parsed text between plain double quotes, where `strconv.Quote` would also escape special characters.
- GoStrings.LowerRune: lower-cases only the characters whose lower case is ASCII. These are 'A'-'Z', U+0130 and U+212A. Every other character is kept as it is. That is enough for comparing against "application/json", but it is not Unicode lower-casing.
- Auth.Authorize: requires that the `Authorization` value lists of the header and the form are non-empty when present. The handler indexes element 0 without a check and would panic on an empty list, which `net/http` never builds.

**Not modelled**
- The `json_dumper` command is not part of this model. It is a timer- and signal-driven loop around a random float and the wall clock.
