/** The database as in-memory tables: users, scans, folders and folder memberships, with the
    four writes the routes perform. Ids and timestamps are chosen by the caller. */
module Store {
  import opened Js
  import opened Http
  import opened Queries

  type ScanId = string
  type FolderId = string

  datatype Scan = Scan(id: ScanId, userId: UserId, url: string, data: Json, createdAt: int)
  datatype Folder = Folder(id: FolderId, userId: UserId, name: string, createdAt: int)

  /** A row of the join table, unique on the pair. */
  datatype Membership = Membership(folderId: FolderId, scanId: ScanId)

  function ScanIds(scans: seq<Scan>): set<ScanId> {
    set s | s in scans :: s.id
  }

  function FolderIds(folders: seq<Folder>): set<FolderId> {
    set f | f in folders :: f.id
  }

  /** `orderBy: { createdAt: "desc" }`. */
  const NewestFirst: (Scan, Scan) -> bool := (s: Scan, t: Scan) => s.createdAt >= t.createdAt

  /** `orderBy: { name: "asc" }`, by character code. */
  const ByName: (Folder, Folder) -> bool := (f: Folder, g: Folder) => StrLe(f.name, g.name)

  lemma NewestFirstIsPreorder()
    ensures TotalPreorder(NewestFirst)
  {
  }

  lemma ByNameIsPreorder()
    ensures TotalPreorder(ByName)
  {
    forall f: Folder, g: Folder ensures ByName(f, g) || ByName(g, f) {
      StrLeTotal(f.name, g.name);
    }
    forall f: Folder, g: Folder, h: Folder | ByName(f, g) && ByName(g, h) ensures ByName(f, h) {
      StrLeTransitive(f.name, g.name, h.name);
    }
  }

  /** `findMany({ where: { userId }, orderBy: { createdAt: "desc" } })`: exactly the user's
      scans, newest first. */
  function ScansOf(scans: seq<Scan>, user: UserId): (r: seq<Scan>)
    ensures forall s :: s in r <==> s in scans && s.userId == user
    ensures multiset(r) == multiset(Filter(scans, (s: Scan) => s.userId == user))
    ensures SortedBy(r, NewestFirst)
  {
    NewestFirstIsPreorder();
    SortBy(Filter(scans, (s: Scan) => s.userId == user), NewestFirst)
  }

  class Database {
    var users: set<UserId>
    var scans: seq<Scan>
    var folders: seq<Folder>
    var memberships: set<Membership>

    /** Ids are unique, every row's owner exists, and every membership names an existing
        folder and scan. */
    ghost predicate Valid()
      reads this
    {
      (forall i, j :: 0 <= i < j < |scans| ==> scans[i].id != scans[j].id)
      && (forall i, j :: 0 <= i < j < |folders| ==> folders[i].id != folders[j].id)
      && (forall s :: s in scans ==> s.userId in users)
      && (forall f :: f in folders ==> f.userId in users)
      && (forall m :: m in memberships ==> m.folderId in FolderIds(folders) && m.scanId in ScanIds(scans))
    }

    constructor (users: set<UserId>)
      ensures Valid()
      ensures this.users == users && scans == [] && folders == [] && memberships == {}
    {
      this.users := users;
      scans := [];
      folders := [];
      memberships := {};
    }

    /** `prisma.user.findUnique`: the user is known exactly when it is in the table; in a valid
        database an unknown user owns no scan and no folder. */
    predicate HasUser(id: UserId): (b: bool)
      reads this
      ensures b <==> id in users
      ensures Valid() && !b ==> (forall s :: s in scans ==> s.userId != id) && (forall f :: f in folders ==> f.userId != id)
    {
      id in users
    }

    /** `prisma.seoScan.create`: appends the row; a taken id or an unknown owner is a database
        error and leaves the table as it was. */
    method CreateScan(scan: Scan) returns (ok: bool)
      requires Valid()
      modifies this
      ensures Valid()
      ensures ok <==> scan.id !in ScanIds(old(scans)) && scan.userId in users
      ensures scans == if ok then old(scans) + [scan] else old(scans)
      ensures users == old(users) && folders == old(folders) && memberships == old(memberships)
    {
      ok := scan.id !in ScanIds(scans) && scan.userId in users;
      if ok {
        assert forall i :: 0 <= i < |scans| ==> scans[i].id in ScanIds(scans);
        ScanIdsGrow(scans, scan);
        scans := scans + [scan];
      }
    }

    /** `prisma.scanFolder.create`: appends the row; a taken id or an unknown owner is a
        database error and leaves the table as it was. Names need not be unique. */
    method CreateFolder(folder: Folder) returns (ok: bool)
      requires Valid()
      modifies this
      ensures Valid()
      ensures ok <==> folder.id !in FolderIds(old(folders)) && folder.userId in users
      ensures folders == if ok then old(folders) + [folder] else old(folders)
      ensures users == old(users) && scans == old(scans) && memberships == old(memberships)
    {
      ok := folder.id !in FolderIds(folders) && folder.userId in users;
      if ok {
        assert forall i :: 0 <= i < |folders| ==> folders[i].id in FolderIds(folders);
        FolderIdsGrow(folders, folder);
        folders := folders + [folder];
      }
    }

    /** `prisma.scanFolderOnScan.createMany({ ..., skipDuplicates: true })`: one statement that
        adds every pair not already present; a pair naming an unknown folder or scan fails the
        whole statement. */
    method CreateMemberships(pairs: seq<Membership>) returns (ok: bool)
      requires Valid()
      modifies this
      ensures Valid()
      ensures ok <==> forall m :: m in pairs ==> m.folderId in FolderIds(folders) && m.scanId in ScanIds(scans)
      ensures memberships == if ok then old(memberships) + (set m | m in pairs) else old(memberships)
      ensures users == old(users) && scans == old(scans) && folders == old(folders)
    {
      ok := forall m :: m in pairs ==> m.folderId in FolderIds(folders) && m.scanId in ScanIds(scans);
      if ok {
        memberships := memberships + set m | m in pairs;
      }
    }

    /** `prisma.scanFolderOnScan.delete` on the compound key: removes the pair; a pair that
        is not there is a database error ("record not found"). */
    method DeleteMembership(m: Membership) returns (ok: bool)
      requires Valid()
      modifies this
      ensures Valid()
      ensures ok <==> m in old(memberships)
      ensures memberships == old(memberships) - {m}
      ensures users == old(users) && scans == old(scans) && folders == old(folders)
    {
      ok := m in memberships;
      memberships := memberships - {m};
    }
  }

  lemma ScanIdsGrow(scans: seq<Scan>, scan: Scan)
    ensures ScanIds(scans + [scan]) == ScanIds(scans) + {scan.id}
  {
    var both := scans + [scan];
    forall id | id in ScanIds(both) ensures id in ScanIds(scans) + {scan.id} {
      var s :| s in both && s.id == id;
    }
    forall id | id in ScanIds(scans) + {scan.id} ensures id in ScanIds(both) {
      if id != scan.id {
        var s :| s in scans && s.id == id;
        assert s in both;
      } else {
        assert scan in both;
      }
    }
  }

  lemma FolderIdsGrow(folders: seq<Folder>, folder: Folder)
    ensures FolderIds(folders + [folder]) == FolderIds(folders) + {folder.id}
  {
    var both := folders + [folder];
    forall id | id in FolderIds(both) ensures id in FolderIds(folders) + {folder.id} {
      var f :| f in both && f.id == id;
    }
    forall id | id in FolderIds(folders) + {folder.id} ensures id in FolderIds(both) {
      if id != folder.id {
        var f :| f in folders && f.id == id;
        assert f in both;
      } else {
        assert folder in both;
      }
    }
  }
}
