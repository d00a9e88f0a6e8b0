/** The two queries of the scans page (`app/scans/page.tsx`): the caller's folders for the
    filter, and the caller's scans, restricted to one folder when the `folder` search
    parameter is set. */
module ScansPage {
  import opened Js
  import opened Http
  import opened Queries
  import opened Store

  /** What the page renders from. */
  datatype Page = Page(folders: seq<Folder>, scans: seq<Scan>)

  /** The `where` of the scan query: the owner, and for a truthy `folder` a membership row
      linking the scan to that folder. */
  predicate Listed(s: Scan, user: UserId, folder: Option<string>, memberships: set<Membership>): (b: bool)
    ensures b ==> s.userId == user
    ensures folder.None? || folder == Some("") ==> (b <==> s.userId == user)
    ensures folder.Some? && folder.value != "" ==>
              (b <==> s.userId == user && Membership(folder.value, s.id) in memberships)
  {
    s.userId == user && (folder.Some? && folder.value != "" ==> Membership(folder.value, s.id) in memberships)
  }

  /** Without a session the page redirects before any query; otherwise the caller's folders
      by name, and the listed scans newest first. */
  function Load(session: Session, folder: Option<string>, folders: seq<Folder>, scans: seq<Scan>,
                memberships: set<Membership>): (r: Response<Page>)
    ensures session.None? <==> r == Redirect("/login")
    ensures session.Some? ==> r.Ok? && r.status == 200
    ensures session.Some? ==> forall f :: f in r.body.folders <==> f in folders && f.userId == session.value
    ensures session.Some? ==> multiset(r.body.folders) == multiset(Filter(folders, (f: Folder) => f.userId == session.value))
    ensures session.Some? ==> SortedBy(r.body.folders, ByName)
    ensures session.Some? ==> forall s :: s in r.body.scans <==> s in scans && Listed(s, session.value, folder, memberships)
    ensures session.Some? ==>
              multiset(r.body.scans) == multiset(Filter(scans, (s: Scan) => Listed(s, session.value, folder, memberships)))
    ensures session.Some? ==> SortedBy(r.body.scans, NewestFirst)
  {
    if session.None? then Redirect("/login")
    else
      var user := session.value;
      ByNameIsPreorder();
      NewestFirstIsPreorder();
      var mine := SortBy(Filter(folders, (f: Folder) => f.userId == user), ByName);
      var listed := SortBy(Filter(scans, (s: Scan) => Listed(s, user, folder, memberships)), NewestFirst);
      MembersOfSorted(Filter(folders, (f: Folder) => f.userId == user), mine);
      MembersOfSorted(Filter(scans, (s: Scan) => Listed(s, user, folder, memberships)), listed);
      Ok(200, Page(mine, listed))
  }

  /** Two lists with the same multiset have the same members. */
  lemma MembersOfSorted<T>(xs: seq<T>, ys: seq<T>)
    requires multiset(xs) == multiset(ys)
    ensures forall x :: x in xs <==> x in ys
  {
    assert forall x :: x in xs <==> x in multiset(xs);
    assert forall y :: y in ys <==> y in multiset(ys);
  }

  /** An absent or empty `folder` parameter restricts nothing: the page lists exactly the
      caller's scans, as the scan listing does. */
  lemma NoFolderNoRestriction(user: UserId, folder: Option<string>, folders: seq<Folder>, scans: seq<Scan>,
                              memberships: set<Membership>)
    requires folder.None? || folder == Some("")
    ensures forall s :: s in Load(Some(user), folder, folders, scans, memberships).body.scans <==>
              s in ScansOf(scans, user)
  {
  }

  /** With a folder selected, every listed scan is in that folder. */
  lemma FolderRestricts(user: UserId, folder: string, folders: seq<Folder>, scans: seq<Scan>,
                        memberships: set<Membership>)
    requires folder != ""
    ensures forall s :: s in Load(Some(user), Some(folder), folders, scans, memberships).body.scans ==>
              s.userId == user && Membership(folder, s.id) in memberships
  {
  }
}
