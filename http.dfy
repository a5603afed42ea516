/** The slice of Go's `net/http` that the handlers use: query parameters,
    `http.Error` and `http.Redirect`. */
module Http {

  /** Decoded query parameters: each name with its values in request order. */
  type Query = map<string, seq<string>>

  /** `url.Values.Get`: the first value given for `name`, or "" when there is none. */
  function QueryGet(q: Query, name: string): (r: string)
    ensures name in q && q[name] != [] ==> r == q[name][0]
    ensures name !in q || q[name] == [] ==> r == ""
  {
    if name in q && |q[name]| > 0 then q[name][0] else ""
  }

  const StatusFound := 302
  const StatusBadRequest := 400

  /** What a handler writes back: an error status with a body, or a redirect
      status with the `Location` header. */
  datatype Response =
    | Error(status: int, body: string)
    | Redirect(status: int, location: string)

  /** `http.Error(w, msg, 400)`: the body is the message and a newline. */
  function BadRequest(msg: string): (r: Response)
    ensures r.Error? && r.status == StatusBadRequest
    ensures |r.body| == |msg| + 1 && r.body[..|msg|] == msg && r.body[|msg|] == '\n'
  {
    Error(StatusBadRequest, msg + "\n")
  }

  /** `http.Redirect(w, req, url, http.StatusFound)`. */
  function Found(url: string): (r: Response)
    ensures r.Redirect? && r.status == StatusFound && r.location == url
  {
    Redirect(StatusFound, url)
  }
}
