/** `POST /api/seo/folders/add-scan` (`app/api/seo/folders/add-scan/route.ts`): files one or
    more scans into a folder. The folder and scans come from a JSON body or from a form; the
    pairs are inserted with duplicates skipped. Who owns the folder or the scans is not
    checked. */
module AddScanRoute {
  import opened Js
  import opened Http
  import opened Store

  /** What the request names: the folder (any JSON value; a form field is a string) and the
      scan ids. */
  datatype Target = Target(folderId: Option<Json>, scanIds: seq<string>)

  // ------------------------------------------------------------ reading the request

  /** `body.scanIds.filter((id): id is string => typeof id === "string")`. */
  function StringsOf(items: seq<Json>): (r: seq<string>)
    ensures forall s :: s in r <==> Str(s) in items
    ensures |r| <= |items|
  {
    if items == [] then []
    else
      assert items == [items[0]] + items[1..];
      (if items[0].Str? then [items[0].s] else []) + StringsOf(items[1..])
  }

  /** The filter keeps the order: it commutes with concatenation. */
  lemma {:induction false} StringsOfConcat(a: seq<Json>, b: seq<Json>)
    ensures StringsOf(a + b) == StringsOf(a) + StringsOf(b)
  {
    if a != [] {
      assert (a + b)[0] == a[0] && (a + b)[1..] == a[1..] + b;
      StringsOfConcat(a[1..], b);
    } else {
      assert a + b == b;
    }
  }

  /** An array made only of strings is kept whole, in order. */
  lemma {:induction false} StringsOfAllStrings(items: seq<Json>)
    requires forall k :: 0 <= k < |items| ==> items[k].Str?
    ensures |StringsOf(items)| == |items|
    ensures forall k :: 0 <= k < |items| ==> StringsOf(items)[k] == items[k].s
  {
    if items != [] {
      var tail := items[1..];
      assert forall k :: 0 <= k < |tail| ==> tail[k] == items[k + 1];
      StringsOfAllStrings(tail);
      var r := StringsOf(items);
      assert r == [items[0].s] + StringsOf(tail);
      forall k | 0 <= k < |items| ensures r[k] == items[k].s {
        if k > 0 {
          assert r[k] == StringsOf(tail)[k - 1];
        }
      }
    }
  }

  /** The scan ids of a JSON body: the strings of `scanIds` when it is an array, else a
      string `scanId` alone, else none. */
  function JsonScanIds(body: Json): (r: seq<string>)
    ensures Prop(Some(body), "scanIds").Some? && Prop(Some(body), "scanIds").value.Arr? ==>
              forall s :: s in r <==> Str(s) in Prop(Some(body), "scanIds").value.items
    ensures !(Prop(Some(body), "scanIds").Some? && Prop(Some(body), "scanIds").value.Arr?) ==>
              |r| <= 1 && forall s :: s in r <==> Prop(Some(body), "scanId") == Some(Str(s))
  {
    var ids := Prop(Some(body), "scanIds");
    var id := Prop(Some(body), "scanId");
    if ids.Some? && ids.value.Arr? then StringsOf(ids.value.items)
    else if id.Some? && id.value.Str? then [id.value.s]
    else []
  }

  /** `(req.headers.get("content-type") || "").includes("application/json")`: the content type
      selects the JSON reading; a request without the header is read as a form. */
  predicate IsJsonRequest(req: Request): (b: bool)
    ensures b <==> Header(req, "content-type").Some?
                   && exists i :: OccursAt(Header(req, "content-type").value, "application/json", i)
  {
    IncludesIffOccurs(Header(req, "content-type").GetOr(""), "application/json");
    Includes(Header(req, "content-type").GetOr(""), "application/json")
  }

  /** The reading of the body, from `let folderId` to the form branch, as a value: what the
      request names, or the error reading it throws (a body that does not parse, or a JSON
      `null`, whose `folderId` cannot be read). */
  function TargetOf(req: Request): (r: Completion<Target>)
    ensures r.Thrown? <==> if IsJsonRequest(req) then req.json.Thrown? || req.json.value == Null
                           else req.form.Thrown?
    ensures r.Normal? && IsJsonRequest(req) ==> r.value.folderId == Prop(Some(req.json.value), "folderId")
    ensures r.Normal? && IsJsonRequest(req) ==> r.value.scanIds == JsonScanIds(req.json.value)
    ensures r.Normal? && !IsJsonRequest(req) ==>
              |r.value.scanIds| <= 1 && (r.value.folderId.Some? ==> r.value.folderId.value.Str?)
  {
    if IsJsonRequest(req) then
      var body :- req.json;
      if body == Null then Thrown("TypeError: cannot read property 'folderId'")
      else Normal(Target(Prop(Some(body), "folderId"), JsonScanIds(body)))
    else
      var form :- req.form;
      var scanId := FormField(form, "scanId");
      var folderId := FormField(form, "folderId");
      Normal(Target(if folderId.Some? then Some(Str(folderId.value)) else None,
                    if scanId.Some? && scanId.value != "" then [scanId.value] else []))
  }

  /** The imperative reading: `folderId` and `scanIds` start empty and are set by whichever
      branch reads the body. */
  method ReadTarget(req: Request) returns (r: Completion<Target>)
    ensures r == TargetOf(req)
  {
    var folderId: Option<Json> := None;
    var scanIds: seq<string> := [];
    var contentType := Header(req, "content-type").GetOr("");
    if Includes(contentType, "application/json") {
      if req.json.Thrown? {
        return Thrown(req.json.error);
      }
      var body := req.json.value;
      if body == Null {
        return Thrown("TypeError: cannot read property 'folderId'");
      }
      folderId := Prop(Some(body), "folderId");
      var ids := Prop(Some(body), "scanIds");
      var id := Prop(Some(body), "scanId");
      if ids.Some? && ids.value.Arr? {
        scanIds := StringsOf(ids.value.items);
      } else if id.Some? && id.value.Str? {
        scanIds := [id.value.s];
      }
    } else {
      if req.form.Thrown? {
        return Thrown(req.form.error);
      }
      var form := req.form.value;
      var field := FormField(form, "folderId");
      if field.Some? {
        folderId := Some(Str(field.value));
      }
      var scanId := FormField(form, "scanId");
      if scanId.Some? && scanId.value != "" {
        scanIds := [scanId.value];
      }
    }
    r := Normal(Target(folderId, scanIds));
  }

  /** A JSON `scanIds` array decides the scans, whatever `scanId` says; `scanId` is used, as
      a singleton, only when `scanIds` is not an array. */
  lemma JsonScanIdsChoice(body: Json)
    ensures Prop(Some(body), "scanIds").Some? && Prop(Some(body), "scanIds").value.Arr? ==>
              JsonScanIds(body) == StringsOf(Prop(Some(body), "scanIds").value.items)
    ensures !(Prop(Some(body), "scanIds").Some? && Prop(Some(body), "scanIds").value.Arr?) ==>
              (JsonScanIds(body) != [] <==> Prop(Some(body), "scanId").Some? && Prop(Some(body), "scanId").value.Str?)
    ensures |JsonScanIds(body)| == 1 && !(Prop(Some(body), "scanIds").Some? && Prop(Some(body), "scanIds").value.Arr?) ==>
              JsonScanIds(body) == [Prop(Some(body), "scanId").value.s]
  {
  }

  /** A form names exactly one scan when its `scanId` is present and not empty, and none
      otherwise. */
  lemma FormScanIds(req: Request)
    requires !IsJsonRequest(req) && req.form.Normal?
    ensures TargetOf(req).Normal?
    ensures |TargetOf(req).value.scanIds| <= 1
    ensures TargetOf(req).value.scanIds != [] <==>
              FormField(req.form.value, "scanId").Some? && FormField(req.form.value, "scanId").value != ""
    ensures TargetOf(req).value.scanIds != [] ==> TargetOf(req).value.scanIds == [FormField(req.form.value, "scanId").value]
  {
  }

  // --------------------------------------------------------------- the insertion

  /** The pairs `createMany` is given: the folder with each scan. */
  function PairsOf(folderId: FolderId, scanIds: seq<string>): (pairs: seq<Membership>)
    ensures |pairs| == |scanIds|
    ensures forall m :: m in pairs <==> m.folderId == folderId && m.scanId in scanIds
  {
    if scanIds == [] then []
    else
      assert scanIds == [scanIds[0]] + scanIds[1..];
      [Membership(folderId, scanIds[0])] + PairsOf(folderId, scanIds[1..])
  }

  /** The statement succeeds exactly when the folder and every scan exist: each pair names
      the folder, and there is at least one pair. */
  lemma PairsExist(folderId: FolderId, scanIds: seq<string>, folders: seq<Folder>, scans: seq<Scan>)
    requires scanIds != []
    ensures (forall m :: m in PairsOf(folderId, scanIds) ==> m.folderId in FolderIds(folders) && m.scanId in ScanIds(scans))
            <==> folderId in FolderIds(folders) && forall s :: s in scanIds ==> s in ScanIds(scans)
  {
    var pairs := PairsOf(folderId, scanIds);
    assert Membership(folderId, scanIds[0]) in pairs;
    if forall m :: m in pairs ==> m.folderId in FolderIds(folders) && m.scanId in ScanIds(scans) {
      forall s | s in scanIds ensures s in ScanIds(scans) {
        assert Membership(folderId, s) in pairs;
      }
    }
  }

  /** The join table after the insert with duplicates skipped. */
  function AddMemberships(ms: set<Membership>, folderId: FolderId, scanIds: seq<string>): (r: set<Membership>)
    ensures forall m :: m in r <==> m in ms || (m.folderId == folderId && m.scanId in scanIds)
  {
    ms + set m | m in PairsOf(folderId, scanIds)
  }

  /** Existing pairs are untouched, every added pair names the folder, and adding the same
      scans again changes nothing. */
  lemma AddMembershipsProperties(ms: set<Membership>, folderId: FolderId, scanIds: seq<string>)
    ensures ms <= AddMemberships(ms, folderId, scanIds)
    ensures forall m :: m in AddMemberships(ms, folderId, scanIds) - ms ==> m.folderId == folderId
    ensures AddMemberships(AddMemberships(ms, folderId, scanIds), folderId, scanIds) == AddMemberships(ms, folderId, scanIds)
  {
    var once := AddMemberships(ms, folderId, scanIds);
    var twice := AddMemberships(once, folderId, scanIds);
    assert forall m :: m in twice <==> m in once;
  }

  /** `!folderId || scanIds.length === 0` is false: the request can go ahead. */
  predicate Accepted(t: Target): (b: bool)
    ensures b ==> t.folderId.Some? && t.scanIds != []
    ensures t.folderId.Some? && t.folderId.value.Str? ==> (b <==> t.folderId.value.s != "" && t.scanIds != [])
  {
    Truthy(t.folderId) && t.scanIds != []
  }

  const MissingMessage := "Dossier ou scan(s) manquant(s)"

  /** The handler. The membership table is the only one it may change. */
  method Post(db: Database, session: Session, req: Request) returns (resp: Response<()>)
    requires db.Valid()
    modifies db
    ensures db.Valid()
    ensures db.users == old(db.users) && db.scans == old(db.scans) && db.folders == old(db.folders)
    ensures session.None? ==> resp == Redirect("/login") && db.memberships == old(db.memberships)
    ensures session.Some? && TargetOf(req).Thrown? ==>
              resp == Error(TargetOf(req).error) && db.memberships == old(db.memberships)
    ensures session.Some? && TargetOf(req).Normal? && !Accepted(TargetOf(req).value) ==>
              resp == BadRequest(MissingMessage) && db.memberships == old(db.memberships)
    ensures session.Some? && TargetOf(req).Normal? && Accepted(TargetOf(req).value) ==>
              var t := TargetOf(req).value;
              if !t.folderId.value.Str? then
                resp.Error? && db.memberships == old(db.memberships)
              else if t.folderId.value.s in FolderIds(db.folders) && (forall s :: s in t.scanIds ==> s in ScanIds(db.scans)) then
                resp == Redirect(Origin(req) + "/scans/folders")
                && db.memberships == AddMemberships(old(db.memberships), t.folderId.value.s, t.scanIds)
              else
                resp.Error? && db.memberships == old(db.memberships)
  {
    if session.None? {
      return Redirect("/login");
    }
    var target := ReadTarget(req);
    if target.Thrown? {
      return Error(target.error);
    }
    var t := target.value;
    if !Accepted(t) {
      return BadRequest(MissingMessage);
    }
    if !t.folderId.value.Str? {
      // Prisma refuses a `scanFolderId` that is not a string.
      return Error("Invalid value for argument scanFolderId: expected a string");
    }
    var folderId := t.folderId.value.s;
    PairsExist(folderId, t.scanIds, db.folders, db.scans);
    var ok := db.CreateMemberships(PairsOf(folderId, t.scanIds));
    if !ok {
      return Error("Foreign key constraint failed");
    }
    resp := Redirect(Origin(req) + "/scans/folders");
  }
}
