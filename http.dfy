/** The request, session and response shapes the route handlers share. */
module Http {
  import opened Js

  type UserId = string

  /** `session?.user`: the id of the signed-in user, if any. */
  type Session = Option<UserId>

  /** What a handler reads from a request: its headers (names in lower case) and the outcomes
      of `req.json()` and `req.formData()`, either of which may fail to parse. A form field is
      read as its string value. */
  datatype Request = Request(headers: map<string, string>, json: Completion<Json>, form: Completion<map<string, string>>)

  /** `req.headers.get(name)`. */
  function Header(req: Request, name: string): Option<string> {
    if name in req.headers then Some(req.headers[name]) else None
  }

  /** `form.get(name)?.toString()`. */
  function FormField(form: map<string, string>, name: string): Option<string> {
    if name in form then Some(form[name]) else None
  }

  const DefaultOrigin := "http://localhost:3000"

  /** `req.headers.get("origin") || "http://localhost:3000"`: an absent or empty header falls
      back to the development origin. */
  function Origin(req: Request): (origin: string)
    ensures Header(req, "origin").Some? && Header(req, "origin").value != "" ==> origin == Header(req, "origin").value
    ensures Header(req, "origin").None? || Header(req, "origin") == Some("") ==> origin == DefaultOrigin
    ensures origin != ""
  {
    var h := Header(req, "origin");
    if h.Some? && h.value != "" then h.value else DefaultOrigin
  }

  /** The outcomes a handler produces: 401, a redirect, 400, 404, a success with its status and
      body, or 500. */
  datatype Response<+T> =
    | Unauthorized(message: string)
    | Redirect(location: string)
    | BadRequest(message: string)
    | NotFound(message: string)
    | Ok(status: int, body: T)
    | Error(message: string)
}
