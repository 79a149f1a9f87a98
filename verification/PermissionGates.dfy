/** The gates said by the rows of the permission table alone: what a user may read and write, from
    which grants exist and the level of the nearest one. */
module PermissionGates {
  import opened Ids
  import opened Permissions

  predicate HasGrant(rows: seq<Grant>, kind: Kind, x: nat) {
    exists r :: r in rows && r.kind == kind && r.resource == x
  }

  predicate HasWriteGrant(rows: seq<Grant>, kind: Kind, x: nat) {
    exists r :: r in rows && r.kind == kind && r.resource == x && r.level == Write
  }

  lemma HeldMeans(rows: seq<Grant>, kind: Kind, x: nat)
    requires Unique(rows)
    ensures x in Held(rows, kind) <==> HasGrant(rows, kind, x)
    ensures HasWriteGrant(rows, kind, x) <==> x in Held(rows, kind) && Held(rows, kind)[x] == Write
  {
    hide Held, Unique;
    HeldHas(rows, kind, x);
    if r :| r in rows && r.kind == kind && r.resource == x {
      var i :| 0 <= i < |rows| && rows[i] == r;
      assert SameTarget(rows[i], kind, x);
    }
    if i :| 0 <= i < |rows| && SameTarget(rows[i], kind, x) {
      assert rows[i] in rows;
    }
  }

  lemma UnscopedMeans(db: Links, rows: seq<Grant>)
    requires Unique(rows)
    ensures Resolve(db, rows).IsEmpty() <==> forall r :: r in rows ==> r.kind == Capability
  {
    hide Held, Unique, HasGrant, HasWriteGrant;
    forall r | r in rows && r.kind != Capability ensures r.resource in Held(rows, r.kind) {
      HeldMeans(rows, r.kind, r.resource);
      assert HasGrant(rows, r.kind, r.resource) by { AnyGrant(rows, r); }
    }
    forall kind: Kind, x | kind != Capability && x in Held(rows, kind)
      ensures exists r :: r in rows && r.kind != Capability
    {
      HeldMeans(rows, kind, x);
      OneGrant(rows, kind, x);
    }
    ScopedMeans(db, rows);
    assert Scoped(db, rows) <==> !Resolve(db, rows).IsEmpty();
    if Held(rows, WorkspaceKind) != map[] { var x :| x in Held(rows, WorkspaceKind); }
    if Held(rows, CollectionKind) != map[] { var x :| x in Held(rows, CollectionKind); }
    if Held(rows, DocumentKind) != map[] { var x :| x in Held(rows, DocumentKind); }
  }

  lemma AnyGrant(rows: seq<Grant>, r: Grant)
    requires r in rows
    ensures HasGrant(rows, r.kind, r.resource)
  {
  }

  lemma OneGrant(rows: seq<Grant>, kind: Kind, x: nat)
    requires HasGrant(rows, kind, x)
    ensures exists r :: r in rows && r.kind == kind
  {
  }

  /** Some collection or document grant lies in workspace `w`. */
  predicate NarrowedBy(db: Links, rows: seq<Grant>, w: WsId) {
    || (exists c :: c in db.cols && db.cols[c] == w && HasGrant(rows, CollectionKind, c))
    || (exists d :: d in db.docs && db.docs[d] in db.cols && db.cols[db.docs[d]] == w && HasGrant(rows, DocumentKind, d))
  }

  lemma NarrowsMeans(db: Links, rows: seq<Grant>, w: WsId)
    requires Unique(rows)
    ensures Narrows(db, rows, w) <==> NarrowedBy(db, rows, w)
  {
    hide Held, Unique, HasGrant, HasWriteGrant;
    forall kind: Kind, x { HeldMeans(rows, kind, x); }
  }

  /** Reading a collection: everyone unscoped may; otherwise a grant on the collection itself opens
      it, and a grant on its workspace does when no grant lies inside that workspace. */
  lemma ReadCollectionMeans(db: Links, rows: seq<Grant>, c: ColId)
    requires Unique(rows)
    ensures AuthorizeCollection(db, User(rows), c, Read) <==>
      || (forall r :: r in rows ==> r.kind == Capability)
      || (c in db.cols
          && (HasGrant(rows, CollectionKind, c)
              || (HasGrant(rows, WorkspaceKind, db.cols[c]) && !NarrowedBy(db, rows, db.cols[c]))))
  {
    hide Held, Unique, HasGrant, HasWriteGrant, NarrowedBy, Narrows, Resolve;
    UnscopedMeans(db, rows);
    assert AuthorizeCollection(db, User(rows), c, Read) <==> CanRead(db, rows, c);
    assert Scoped(db, rows) <==> !Resolve(db, rows).IsEmpty();
    CanReadMeans(db, rows, c);
    HeldMeans(rows, CollectionKind, c);
    if c in db.cols {
      HeldMeans(rows, WorkspaceKind, db.cols[c]);
      NarrowsMeans(db, rows, db.cols[c]);
    }
  }

  /** Writing a collection: reading it, and a write grant at the nearest level that has one. */
  lemma WriteCollectionMeans(db: Links, rows: seq<Grant>, c: ColId)
    requires Unique(rows)
    ensures AuthorizeCollection(db, User(rows), c, Write) <==>
      || (forall r :: r in rows ==> r.kind == Capability)
      || (c in db.cols && AuthorizeCollection(db, User(rows), c, Read)
          && if HasGrant(rows, CollectionKind, c) then HasWriteGrant(rows, CollectionKind, c)
             else HasWriteGrant(rows, WorkspaceKind, db.cols[c]))
  {
    hide Held, Unique, HasGrant, HasWriteGrant;
    UnscopedMeans(db, rows);
    HeldMeans(rows, CollectionKind, c);
    if c in db.cols { HeldMeans(rows, WorkspaceKind, db.cols[c]); }
  }

  /** Reading a document: a grant on it, or its collection being readable. Writing it: reading it,
      and a write grant at the nearest level that has one. */
  lemma DocumentMeans(db: Links, rows: seq<Grant>, d: DocId)
    requires Unique(rows)
    ensures AuthorizeDocument(db, User(rows), d, Read) <==>
      || (forall r :: r in rows ==> r.kind == Capability)
      || (d in db.docs && db.docs[d] in db.cols
          && (HasGrant(rows, DocumentKind, d) || AuthorizeCollection(db, User(rows), db.docs[d], Read)))
    ensures AuthorizeDocument(db, User(rows), d, Write) <==>
      || (forall r :: r in rows ==> r.kind == Capability)
      || (d in db.docs && db.docs[d] in db.cols && AuthorizeDocument(db, User(rows), d, Read)
          && if HasGrant(rows, DocumentKind, d) then HasWriteGrant(rows, DocumentKind, d)
             else if HasGrant(rows, CollectionKind, db.docs[d]) then HasWriteGrant(rows, CollectionKind, db.docs[d])
             else HasWriteGrant(rows, WorkspaceKind, db.cols[db.docs[d]]))
  {
    hide Held, Unique, HasGrant, HasWriteGrant;
    UnscopedMeans(db, rows);
    HeldMeans(rows, DocumentKind, d);
    if d in db.docs && db.docs[d] in db.cols {
      HeldMeans(rows, CollectionKind, db.docs[d]);
      HeldMeans(rows, WorkspaceKind, db.cols[db.docs[d]]);
    }
  }

  /** Reading a workspace: a grant on it or on anything inside. Writing it: a write grant on it. */
  lemma WorkspaceMeans(db: Links, rows: seq<Grant>, w: WsId)
    requires Unique(rows)
    ensures AuthorizeWorkspace(db, User(rows), w, Read) <==>
      || (forall r :: r in rows ==> r.kind == Capability)
      || HasGrant(rows, WorkspaceKind, w) || NarrowedBy(db, rows, w)
    ensures AuthorizeWorkspace(db, User(rows), w, Write) <==>
      || (forall r :: r in rows ==> r.kind == Capability)
      || HasWriteGrant(rows, WorkspaceKind, w)
  {
    hide Held, Unique, HasGrant, HasWriteGrant, NarrowedBy, Narrows;
    UnscopedMeans(db, rows);
    HeldMeans(rows, WorkspaceKind, w);
    NarrowedMeans(db, rows, w);
    NarrowsMeans(db, rows, w);
  }

  /** The master key passes every gate and a key without a user none. */
  lemma OthersMean(db: Links, x: nat, need: Level)
    ensures AuthorizeCollection(db, Master, x, need) && AuthorizeDocument(db, Master, x, need) && AuthorizeWorkspace(db, Master, x, need)
    ensures !AuthorizeCollection(db, NoUser, x, need) && !AuthorizeDocument(db, NoUser, x, need) && !AuthorizeWorkspace(db, NoUser, x, need)
  {
  }
}
