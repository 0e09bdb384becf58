/** The parts of `net/http` that the handlers' decisions depend on: status codes, the
    multi-valued maps behind `url.Values` and `http.Header`, and the response writer's
    rules for the status line. */
module Http {

  const MethodGet := "GET"
  const MethodPost := "POST"

  const StatusOK: nat := 200
  const StatusAccepted: nat := 202
  const StatusBadRequest: nat := 400
  const StatusUnauthorized: nat := 401
  const StatusInternalServerError: nat := 500

  /** `url.Values` and `http.Header`: each key maps to the list of its values. */
  type Values = map<string, seq<string>>

  /** What a handler leaves behind: the status line and the chunks written to the body. */
  datatype Response<B> = Response(status: nat, body: seq<B>)

  /** A `ResponseWriter` as the handlers use it: the first status written is the one sent,
      and the first body write sends 200 if no status was written before. */
  class ResponseRecorder<B> {
    /** 0 until a status has been written. */
    var status: nat
    var body: seq<B>

    constructor ()
      ensures status == 0 && body == []
    {
      status := 0;
      body := [];
    }

    /** The response as the client sees it once the handler returns. */
    function Recorded(): Response<B>
      reads this
    {
      Response(if status == 0 then StatusOK else status, body)
    }

    /** `WriteHeader(code)`: a second call is superfluous and ignored. */
    method WriteHeader(code: nat)
      requires 100 <= code <= 999
      modifies this
      ensures status == if old(status) == 0 then code else old(status)
      ensures body == old(body)
    {
      if status == 0 {
        status := code;
      }
    }

    /** `Write(data)`: sends 200 first if nothing was sent yet. */
    method Write(chunk: B)
      modifies this
      ensures status == if old(status) == 0 then StatusOK else old(status)
      ensures body == old(body) + [chunk]
    {
      if status == 0 {
        status := StatusOK;
      }
      body := body + [chunk];
    }
  }
}
