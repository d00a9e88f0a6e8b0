/** `app/api/seo/route.ts`: `POST` stores a scan sent by the extension, the `url` key of the
    body kept apart from the rest, and `GET` lists the caller's scans, newest first. */
module SeoRoute {
  import opened Js
  import opened Http
  import opened Queries
  import opened Store

  /** `const { url, ...data } = body` on an object: every key but `url`, with its value. */
  function DataOf(fields: map<string, Json>): (data: map<string, Json>)
    ensures "url" !in data
    ensures forall k :: k in data <==> k in fields && k != "url"
    ensures forall k :: k in data ==> data[k] == fields[k]
  {
    fields - {"url"}
  }

  /** Nothing of the body is lost: putting `url` back into `data` gives the body again. */
  lemma DataAndUrlMakeTheBody(fields: map<string, Json>)
    requires "url" in fields
    ensures DataOf(fields)["url" := fields["url"]] == fields
  {
    var back := DataOf(fields)["url" := fields["url"]];
    assert back.Keys == fields.Keys;
  }

  /** `await req.json()` and the destructuring: the body's `url`, or the exception (a body
      that does not parse, or `null`). */
  function UrlOf(req: Request): (r: Completion<Option<Json>>)
    ensures r.Thrown? <==> req.json.Thrown? || req.json.value == Null
    ensures r.Normal? ==> r.value == Prop(Some(req.json.value), "url")
  {
    var body :- req.json;
    Member(Some(body), "url")
  }

  /** A truthy `url` can only have come from an object body. */
  lemma UrlComesFromAnObject(req: Request)
    requires UrlOf(req).Normal? && Truthy(UrlOf(req).value)
    ensures req.json.Normal? && req.json.value.Obj? && "url" in req.json.value.fields
    ensures UrlOf(req).value == Some(req.json.value.fields["url"])
  {
  }

  const ServerError := "Internal Server Error"

  /** The handler of `POST`. `freshId` and `now` are the id and timestamp the database
      assigns. A truthy `url` that is not a string reaches the database, which refuses it. */
  method Post(db: Database, session: Session, req: Request, freshId: ScanId, now: int)
    returns (resp: Response<Scan>)
    requires db.Valid()
    modifies db
    ensures db.Valid()
    ensures db.users == old(db.users) && db.folders == old(db.folders) && db.memberships == old(db.memberships)
    ensures session.None? ==> resp == Unauthorized("Unauthorized") && db.scans == old(db.scans)
    ensures session.Some? && UrlOf(req).Thrown? ==> resp == Error(ServerError) && db.scans == old(db.scans)
    ensures session.Some? && UrlOf(req).Normal? && !Truthy(UrlOf(req).value) ==>
              resp == BadRequest("URL is required") && db.scans == old(db.scans)
    ensures session.Some? && UrlOf(req).Normal? && Truthy(UrlOf(req).value) && session.value !in db.users ==>
              resp == NotFound("User not found") && db.scans == old(db.scans)
    ensures session.Some? && UrlOf(req).Normal? && Truthy(UrlOf(req).value) && session.value in db.users ==>
              var url := UrlOf(req).value.value;
              var scan := Scan(freshId, session.value, if url.Str? then url.s else "", Obj(DataOf(req.json.value.fields)), now);
              if url.Str? && freshId !in ScanIds(old(db.scans)) then
                resp == Ok(200, scan) && db.scans == old(db.scans) + [scan]
              else
                resp == Error(ServerError) && db.scans == old(db.scans)
  {
    if session.None? {
      return Unauthorized("Unauthorized");
    }
    var url := UrlOf(req);
    if url.Thrown? {
      return Error(ServerError);
    }
    if !Truthy(url.value) {
      return BadRequest("URL is required");
    }
    if !db.HasUser(session.value) {
      return NotFound("User not found");
    }
    UrlComesFromAnObject(req);
    if !url.value.value.Str? {
      return Error(ServerError);
    }
    var scan := Scan(freshId, session.value, url.value.value.s, Obj(DataOf(req.json.value.fields)), now);
    var ok := db.CreateScan(scan);
    if !ok {
      return Error(ServerError);
    }
    resp := Ok(200, scan);
  }

  /** The handler of `GET`: the caller's scans, every one of them and no other, newest
      first. */
  function Get(session: Session, scans: seq<Scan>): (r: Response<seq<Scan>>)
    ensures session.None? <==> r == Unauthorized("Unauthorized")
    ensures session.Some? ==> r.Ok? && r.status == 200
    ensures session.Some? ==> forall s :: s in r.body <==> s in scans && s.userId == session.value
    ensures session.Some? ==> multiset(r.body) == multiset(Filter(scans, (s: Scan) => s.userId == session.value))
    ensures session.Some? ==> SortedBy(r.body, NewestFirst)
  {
    if session.None? then Unauthorized("Unauthorized")
    else Ok(200, ScansOf(scans, session.value))
  }
}
