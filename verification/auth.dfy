/** The authorization tester mounted under "/auth/": a request passes when the first
    value of its `Authorization` header equals the expected value, which is the first
    `Authorization` form value when that is non-empty and "default" otherwise. */
module Auth {
  import opened Http

  const AuthHeader := "Authorization"
  const DefaultAuthVal := "default"
  const NoAuthMessage := "No Auth Header"
  const SuccessBody := "<html>Successful auth</html>"

  /** The handler reads index 0 of the header's and the form's value lists without a check;
      the header and form maps built by `net/http` and `url.ParseQuery` never hold an empty
      list. */
  predicate FirstValuesExist(header: Values, form: Values) {
    && (AuthHeader in header ==> |header[AuthHeader]| > 0)
    && (AuthHeader in form ==> |form[AuthHeader]| > 0)
  }

  /** The value the header has to carry: the first form value if it is non-empty, else the default. */
  function ExpectedValue(form: Values): (r: string)
    requires AuthHeader in form ==> |form[AuthHeader]| > 0
    ensures r != ""
    ensures r == DefaultAuthVal || (AuthHeader in form && r == form[AuthHeader][0])
    ensures AuthHeader in form && form[AuthHeader][0] != "" ==> r == form[AuthHeader][0]
  {
    if AuthHeader in form && |form[AuthHeader][0]| > 0 then form[AuthHeader][0] else DefaultAuthVal
  }

  /** `http.Error(w, msg, code)` on a fresh response. */
  function ErrorResponse(msg: string, code: nat): Response<string> {
    Response(code, [msg + "\n"])
  }

  /** `ServeHTTP`: 202 with the success page when the header matches, else 401. */
  function Authorize(header: Values, form: Values): (r: Response<string>)
    requires FirstValuesExist(header, form)
    ensures r.status == StatusAccepted || r.status == StatusUnauthorized
    ensures r.status == StatusAccepted <==>
      AuthHeader in header && header[AuthHeader][0] == ExpectedValue(form)
    ensures r.status == StatusAccepted ==> r.body == [SuccessBody]
    ensures r.status == StatusUnauthorized ==> r.body == [NoAuthMessage + "\n"]
  {
    if AuthHeader !in header then ErrorResponse(NoAuthMessage, StatusUnauthorized)
    else
      var authVal := ExpectedValue(form);
      if header[AuthHeader][0] != authVal then ErrorResponse(NoAuthMessage, StatusUnauthorized)
      else Response(StatusAccepted, [SuccessBody])
  }

  /** Without the header the request is refused, whatever the form holds. */
  lemma MissingHeaderRejected(header: Values, form: Values)
    requires FirstValuesExist(header, form) && AuthHeader !in header
    ensures Authorize(header, form) == Response(StatusUnauthorized, [NoAuthMessage + "\n"])
  {
  }

  /** An empty header value never passes: the expected value is never empty. */
  lemma EmptyHeaderRejected(header: Values, form: Values)
    requires FirstValuesExist(header, form) && AuthHeader in header && header[AuthHeader][0] == ""
    ensures Authorize(header, form).status == StatusUnauthorized
  {
  }

  /** With no usable form value, exactly the header value "default" passes. */
  lemma DefaultAccepted(header: Values, form: Values)
    requires FirstValuesExist(header, form) && AuthHeader in header
    requires AuthHeader !in form || form[AuthHeader][0] == ""
    ensures Authorize(header, form).status == StatusAccepted <==> header[AuthHeader][0] == DefaultAuthVal
  {
  }

  /** A non-empty form value replaces the default: then "default" itself is refused unless it is
      that value. */
  lemma OverrideReplacesDefault(header: Values, form: Values)
    requires FirstValuesExist(header, form) && AuthHeader in header
    requires AuthHeader in form && form[AuthHeader][0] != ""
    ensures Authorize(header, form).status == StatusAccepted <==> header[AuthHeader][0] == form[AuthHeader][0]
  {
  }

  /** Only the first header value and the first form value are consulted. */
  lemma FirstValuesOnly(header: Values, form: Values, header': Values, form': Values)
    requires FirstValuesExist(header, form) && FirstValuesExist(header', form')
    requires AuthHeader in header <==> AuthHeader in header'
    requires AuthHeader in header ==> header[AuthHeader][0] == header'[AuthHeader][0]
    requires AuthHeader in form <==> AuthHeader in form'
    requires AuthHeader in form ==> form[AuthHeader][0] == form'[AuthHeader][0]
    ensures Authorize(header, form) == Authorize(header', form')
  {
  }

  /** The comparison is exact: a header value that differs from the expected value in any way,
      letter case included, is refused. */
  lemma ExactMatchOnly(header: Values, form: Values)
    requires FirstValuesExist(header, form) && AuthHeader in header
    requires header[AuthHeader][0] != ExpectedValue(form)
    ensures Authorize(header, form).status == StatusUnauthorized
    ensures Authorize(header, form).body == [NoAuthMessage + "\n"]
  {
  }

  /** The package's test cases: the header holds `headerVal` and the URL query, parsed into the
      form, holds `urlHeader`. */
  lemma AuthTestCases()
    ensures Authorize(map[AuthHeader := [""]], map[AuthHeader := [""]]).status == StatusUnauthorized
    ensures Authorize(map[AuthHeader := ["default"]], map[AuthHeader := [""]]).status == StatusAccepted
    ensures Authorize(map[AuthHeader := ["badauth"]], map[AuthHeader := ["expectedAuth"]]).status == StatusUnauthorized
    ensures Authorize(map[AuthHeader := ["expectedAuth"]], map[AuthHeader := ["expectedAuth"]]).status == StatusAccepted
    ensures Authorize(map[AuthHeader := ["Default"]], map[]).status == StatusUnauthorized
  {
  }
}
