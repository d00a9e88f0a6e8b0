/** `POST /api/seo/folders/remove-scan` (`app/api/seo/folders/remove-scan/route.ts`): takes
    one scan out of one folder, named by two form fields. The pair is deleted by its compound
    key, so a pair that is not there is an error; who owns the folder is not checked. */
module RemoveScanRoute {
  import opened Js
  import opened Http
  import opened Store

  /** `!folderId || !scanId` is false: both fields are present and not empty. */
  function PairOf(form: map<string, string>): (r: Option<Membership>)
    ensures r.Some? <==> FormField(form, "folderId").Some? && FormField(form, "folderId").value != ""
                         && FormField(form, "scanId").Some? && FormField(form, "scanId").value != ""
    ensures r.Some? ==> r.value == Membership(form["folderId"], form["scanId"])
  {
    var folderId := FormField(form, "folderId");
    var scanId := FormField(form, "scanId");
    if Truthy(if folderId.Some? then Some(Str(folderId.value)) else None)
       && Truthy(if scanId.Some? then Some(Str(scanId.value)) else None)
    then Some(Membership(folderId.value, scanId.value))
    else None
  }

  const MissingMessage := "Dossier ou scan manquant"

  /** The handler. It changes the membership table and no other. */
  method Post(db: Database, session: Session, req: Request) returns (resp: Response<()>)
    requires db.Valid()
    modifies db
    ensures db.Valid()
    ensures db.users == old(db.users) && db.scans == old(db.scans) && db.folders == old(db.folders)
    ensures session.None? ==> resp == Redirect("/login") && db.memberships == old(db.memberships)
    ensures session.Some? && req.form.Thrown? ==>
              resp == Error(req.form.error) && db.memberships == old(db.memberships)
    ensures session.Some? && req.form.Normal? && PairOf(req.form.value).None? ==>
              resp == BadRequest(MissingMessage) && db.memberships == old(db.memberships)
    ensures session.Some? && req.form.Normal? && PairOf(req.form.value).Some? ==>
              var m := PairOf(req.form.value).value;
              db.memberships == old(db.memberships) - {m}
              && (if m in old(db.memberships) then resp == Redirect(Origin(req) + "/scans/folders")
                  else resp.Error?)
  {
    if session.None? {
      return Redirect("/login");
    }
    if req.form.Thrown? {
      return Error(req.form.error);
    }
    var pair := PairOf(req.form.value);
    if pair.None? {
      return BadRequest(MissingMessage);
    }
    var ok := db.DeleteMembership(pair.value);
    if !ok {
      return Error("Record to delete does not exist");
    }
    resp := Redirect(Origin(req) + "/scans/folders");
  }
}
