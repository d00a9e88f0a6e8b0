/** `POST /api/seo/folders/create` (`app/api/seo/folders/create/route.ts`): the folder-creation
    route the create-folder button calls. Only a falsy name is refused; the name is stored as
    given, untrimmed, and the reply is a bare 201. Every exception becomes a 500. */
module CreateFolderRoute {
  import opened Js
  import opened Http
  import opened Store
  import FoldersRoute

  const ServerError := "Internal Server Error"

  /** The handler. `freshId` and `now` are the id and timestamp the database assigns. A
      truthy name that is not a string reaches the database, which refuses it. */
  method Post(db: Database, session: Session, req: Request, freshId: FolderId, now: int)
    returns (resp: Response<string>)
    requires db.Valid()
    modifies db
    ensures db.Valid()
    ensures db.users == old(db.users) && db.scans == old(db.scans) && db.memberships == old(db.memberships)
    ensures session.None? ==> resp == Unauthorized("Unauthorized") && db.folders == old(db.folders)
    ensures session.Some? && FoldersRoute.NameOf(req).Thrown? ==>
              resp == Error(ServerError) && db.folders == old(db.folders)
    ensures session.Some? && FoldersRoute.NameOf(req).Normal? && !Truthy(FoldersRoute.NameOf(req).value) ==>
              resp == BadRequest("Name is required") && db.folders == old(db.folders)
    ensures session.Some? && FoldersRoute.NameOf(req).Normal? && Truthy(FoldersRoute.NameOf(req).value) ==>
              var name := FoldersRoute.NameOf(req).value.value;
              if name.Str? && freshId !in FolderIds(old(db.folders)) && session.value in db.users then
                resp == Ok(201, "Folder created")
                && db.folders == old(db.folders) + [Folder(freshId, session.value, name.s, now)]
              else
                resp == Error(ServerError) && db.folders == old(db.folders)
  {
    if session.None? {
      return Unauthorized("Unauthorized");
    }
    var name := FoldersRoute.NameOf(req);
    if name.Thrown? {
      return Error(ServerError);
    }
    if !Truthy(name.value) {
      return BadRequest("Name is required");
    }
    if !name.value.value.Str? {
      return Error(ServerError);
    }
    var ok := db.CreateFolder(Folder(freshId, session.value, name.value.value.s, now));
    if !ok {
      return Error(ServerError);
    }
    resp := Ok(201, "Folder created");
  }

  /** The two creation routes disagree on blank names: a non-empty name made only of white
      space passes this route's check but not the trimming route's. */
  lemma BlankNameAcceptedHereOnly(s: string)
    requires s != "" && AllSpace(s)
    ensures Truthy(Some(Str(s)))
    ensures !FoldersRoute.ValidName(Some(Str(s)))
  {
    TrimEmptyIffAllSpace(s);
  }

  /** On every other string the two routes agree on acceptance. This route stores `s` and the
      trimming route stores `Trim(s)`: the two stored names are the same exactly when `s`
      neither starts nor ends with white space. */
  lemma RoutesAgreeOnOtherNames(s: string)
    requires !AllSpace(s)
    ensures Truthy(Some(Str(s))) && FoldersRoute.ValidName(Some(Str(s)))
    ensures s != [] && (Trim(s) == s <==> !IsSpace(s[0]) && !IsSpace(s[|s| - 1]))
  {
    TrimEmptyIffAllSpace(s);
    TrimKeepsUnpadded(s);
  }
}
