/** `POST /api/seo/folders` (`app/api/seo/folders/route.ts`): creates a folder for the
    signed-in user from a JSON body `{ name }`. The name must be a string that is not blank;
    it is stored trimmed, and the new row is returned. Every exception becomes a 500. */
module FoldersRoute {
  import opened Js
  import opened Http
  import opened Store

  /** `const { name } = await request.json()`: a body that does not parse throws, and so
      does destructuring `null`; any other value without a `name` key gives `undefined`. */
  function NameOf(req: Request): (r: Completion<Option<Json>>)
    ensures r.Thrown? <==> req.json.Thrown? || req.json.value == Null
    ensures r.Normal? ==> r.value == Prop(Some(req.json.value), "name")
  {
    var body :- req.json;
    Member(Some(body), "name")
  }

  /** `!name || typeof name !== "string" || name.trim().length === 0`, negated: `name` is
      truthy, a string, and not empty once trimmed. */
  predicate ValidName(name: Option<Json>): (b: bool)
    ensures b ==> name.Some? && name.value.Str? && name.value.s != "" && Trim(name.value.s) != []
  {
    TypeOfString(name);
    Truthy(name) && TypeOf(name) == "string" && |Trim(name.value.s)| != 0
  }

  /** The accepted names are exactly the strings with a character that is not white space;
      a missing name, a non-string and a blank string are all refused. */
  lemma ValidNameMeans(name: Option<Json>)
    ensures ValidName(name) <==> name.Some? && name.value.Str? && !AllSpace(name.value.s)
  {
    TypeOfString(name);
    if name.Some? && name.value.Str? {
      TrimEmptyIffAllSpace(name.value.s);
    }
  }

  /** The stored name `name.trim()` of an accepted name is never empty and neither starts
      nor ends with white space. */
  lemma StoredNameIsTrimmed(name: Option<Json>)
    requires ValidName(name)
    ensures var stored := Trim(name.value.s);
            stored != [] && !IsSpace(stored[0]) && !IsSpace(stored[|stored| - 1])
  {
  }

  const InternalError := "Internal Error"

  /** The handler. `freshId` and `now` are the id and timestamp the database assigns. */
  method Post(db: Database, session: Session, req: Request, freshId: FolderId, now: int)
    returns (resp: Response<Folder>)
    requires db.Valid()
    modifies db
    ensures db.Valid()
    ensures db.users == old(db.users) && db.scans == old(db.scans) && db.memberships == old(db.memberships)
    ensures session.None? ==> resp == Unauthorized("Unauthorized") && db.folders == old(db.folders)
    ensures session.Some? && NameOf(req).Thrown? ==> resp == Error(InternalError) && db.folders == old(db.folders)
    ensures session.Some? && NameOf(req).Normal? && !ValidName(NameOf(req).value) ==>
              resp == BadRequest("Invalid folder name") && db.folders == old(db.folders)
    ensures session.Some? && NameOf(req).Normal? && ValidName(NameOf(req).value) ==>
              var folder := Folder(freshId, session.value, Trim(NameOf(req).value.value.s), now);
              if freshId !in FolderIds(old(db.folders)) && session.value in db.users then
                resp == Ok(200, folder) && db.folders == old(db.folders) + [folder]
              else
                resp == Error(InternalError) && db.folders == old(db.folders)
  {
    if session.None? {
      return Unauthorized("Unauthorized");
    }
    var name := NameOf(req);
    if name.Thrown? {
      return Error(InternalError);
    }
    if !ValidName(name.value) {
      return BadRequest("Invalid folder name");
    }
    var folder := Folder(freshId, session.value, Trim(name.value.value.s), now);
    var ok := db.CreateFolder(folder);
    if !ok {
      return Error(InternalError);
    }
    resp := Ok(200, folder);
  }

  /** Names are not unique: the same request made twice, with two fresh ids, stores two
      folders of the same name side by side. */
  method SameNameTwice(db: Database, user: UserId, req: Request, first: FolderId, second: FolderId, now: int)
    returns (a: Response<Folder>, b: Response<Folder>)
    requires db.Valid() && user in db.users
    requires NameOf(req).Normal? && ValidName(NameOf(req).value)
    requires first != second && first !in FolderIds(db.folders) && second !in FolderIds(db.folders)
    modifies db
    ensures a.Ok? && b.Ok? && a.body.name == b.body.name && a.body.id != b.body.id
    ensures db.folders == old(db.folders) + [a.body, b.body]
  {
    a := Post(db, Some(user), req, first, now);
    FolderIdsGrow(old(db.folders), a.body);
    b := Post(db, Some(user), req, second, now);
  }
}
