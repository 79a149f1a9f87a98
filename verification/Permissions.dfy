/** Permissions scope a user down. A user with no data grant is unrestricted; any grant scopes the
    user to the workspaces it touches, and collection or document grants narrow inside them. */
module Permissions {
  import opened Ids

  datatype Level = Read | Write
  datatype Kind = WorkspaceKind | CollectionKind | DocumentKind | Capability
  datatype Grant = Grant(id: nat, kind: Kind, resource: nat, level: Level)

  /** The parent links: each collection's workspace, each document's collection. */
  datatype Links = Links(cols: map<ColId, WsId>, docs: map<DocId, ColId>)

  datatype Principal = Master | NoUser | User(rows: seq<Grant>)

  // ---- the grant table -----------------------------------------------------------------

  function Held(rows: seq<Grant>, kind: Kind): map<nat, Level> {
    if rows == [] then map[]
    else
      var r := rows[|rows| - 1];
      var held := Held(rows[..|rows| - 1], kind);
      if r.kind == kind then held[r.resource := r.level] else held
  }

  predicate SameTarget(r: Grant, kind: Kind, resource: nat) {
    r.kind == kind && r.resource == resource
  }

  /** The table's uniqueness constraints: one row per grant id and per target. */
  predicate Unique(rows: seq<Grant>) {
    forall i, j :: 0 <= i < j < |rows| ==>
      rows[i].id != rows[j].id && !SameTarget(rows[j], rows[i].kind, rows[i].resource)
  }

  /** `grant_permission`: a second grant on a resource changes its level in place. */
  function Granted(rows: seq<Grant>, kind: Kind, resource: nat, level: Level, id: nat): seq<Grant> {
    if rows == [] then [Grant(id, kind, resource, level)]
    else if SameTarget(rows[0], kind, resource) then [rows[0].(level := level)] + rows[1..]
    else [rows[0]] + Granted(rows[1..], kind, resource, level, id)
  }

  /** `revoke_permission` */
  function Revoked(rows: seq<Grant>, id: nat): seq<Grant> {
    if rows == [] then []
    else if rows[0].id == id then Revoked(rows[1..], id)
    else [rows[0]] + Revoked(rows[1..], id)
  }

  lemma {:induction false} HeldHas(rows: seq<Grant>, kind: Kind, x: nat)
    requires Unique(rows)
    ensures x in Held(rows, kind) <==> exists i :: 0 <= i < |rows| && SameTarget(rows[i], kind, x)
    ensures forall i :: 0 <= i < |rows| && SameTarget(rows[i], kind, x) ==> Held(rows, kind)[x] == rows[i].level
  {
    if rows != [] {
      var init, r := rows[..|rows| - 1], rows[|rows| - 1];
      assert rows == init + [r];
      HeldHas(init, kind, x);
      assert forall i :: 0 <= i < |init| ==> rows[i] == init[i];
      if SameTarget(r, kind, x) { assert SameTarget(rows[|rows| - 1], kind, x); }
    }
  }

  /** No row before the `i`th is for this target. */
  predicate Unseen(rows: seq<Grant>, kind: Kind, resource: nat, i: nat) {
    forall j :: 0 <= j < i && j < |rows| ==> !SameTarget(rows[j], kind, resource)
  }

  lemma {:induction false} GrantedAt(rows: seq<Grant>, kind: Kind, resource: nat, level: Level, id: nat, i: nat)
    requires i < |rows| && Unseen(rows, kind, resource, i) && SameTarget(rows[i], kind, resource)
    ensures Granted(rows, kind, resource, level, id) == rows[i := rows[i].(level := level)]
  {
    if i > 0 {
      assert forall j :: 0 < j < |rows| ==> rows[j] == rows[1..][j - 1];
      GrantedAt(rows[1..], kind, resource, level, id, i - 1);
    }
  }

  lemma {:induction false} GrantedNew(rows: seq<Grant>, kind: Kind, resource: nat, level: Level, id: nat)
    requires Unseen(rows, kind, resource, |rows|)
    ensures Granted(rows, kind, resource, level, id) == rows + [Grant(id, kind, resource, level)]
  {
    if rows != [] {
      assert forall j :: 0 < j < |rows| ==> rows[j] == rows[1..][j - 1];
      GrantedNew(rows[1..], kind, resource, level, id);
    }
  }

  /** Where a grant lands: on the first row for its target, or at the end. */
  lemma GrantedWhere(rows: seq<Grant>, kind: Kind, resource: nat, level: Level, id: nat) returns (i: nat)
    ensures i <= |rows| && Unseen(rows, kind, resource, i)
    ensures i < |rows| ==> SameTarget(rows[i], kind, resource)
    ensures Granted(rows, kind, resource, level, id) ==
      if i < |rows| then rows[i := rows[i].(level := level)] else rows + [Grant(id, kind, resource, level)]
  {
    hide Granted;
    i := 0;
    while i < |rows| && !SameTarget(rows[i], kind, resource)
      invariant i <= |rows| && Unseen(rows, kind, resource, i)
    {
      i := i + 1;
    }
    if i < |rows| { GrantedAt(rows, kind, resource, level, id, i); } else { GrantedNew(rows, kind, resource, level, id); }
  }

  lemma GrantedIsUnique(rows: seq<Grant>, kind: Kind, resource: nat, level: Level, id: nat)
    requires Unique(rows) && forall r :: r in rows ==> r.id != id
    ensures Unique(Granted(rows, kind, resource, level, id))
  {
    hide Granted;
    var i := GrantedWhere(rows, kind, resource, level, id);
    assert forall j :: 0 <= j < |rows| ==> rows[j] in rows;
  }

  /** Granting sets the level held on its target and changes nothing else held. */
  lemma HeldGranted(rows: seq<Grant>, kind: Kind, resource: nat, level: Level, id: nat, other: Kind)
    requires Unique(rows) && forall r :: r in rows ==> r.id != id
    ensures Held(Granted(rows, kind, resource, level, id), other) ==
      if other == kind then Held(rows, kind)[resource := level] else Held(rows, other)
  {
    hide Held, Granted;
    var after := Granted(rows, kind, resource, level, id);
    GrantedIsUnique(rows, kind, resource, level, id);
    var before := if other == kind then Held(rows, kind)[resource := level] else Held(rows, other);
    forall x: nat ensures x in Held(after, other) <==> x in before
      ensures x in before ==> Held(after, other)[x] == before[x]
    {
      HeldAt(rows, kind, resource, level, id, other, x);
    }
  }

  lemma HeldAt(rows: seq<Grant>, kind: Kind, resource: nat, level: Level, id: nat, other: Kind, x: nat)
    requires Unique(rows) && Unique(Granted(rows, kind, resource, level, id))
    ensures var held := Held(Granted(rows, kind, resource, level, id), other);
      if other == kind && x == resource then x in held && held[x] == level
      else (x in held <==> x in Held(rows, other)) && (x in held ==> held[x] == Held(rows, other)[x])
  {
    hide Held, Granted, Unique;
    var after := Granted(rows, kind, resource, level, id);
    var i := GrantedWhere(rows, kind, resource, level, id);
    assert i < |after| && SameTarget(after[i], kind, resource) && after[i].level == level;
    HeldHas(after, other, x);
    HeldHas(rows, other, x);
    if !(other == kind && x == resource) {
      assert forall j :: 0 <= j < |rows| && SameTarget(rows[j], other, x) ==> after[j] == rows[j];
      assert forall j :: 0 <= j < |after| && SameTarget(after[j], other, x) ==> j < |rows| && after[j] == rows[j];
    }
  }

  /** Revoking a new grant gives back the very table there was before it. */
  lemma {:induction false} RevokeUndoesGrant(rows: seq<Grant>, kind: Kind, resource: nat, level: Level, id: nat)
    requires forall r :: r in rows ==> r.id != id && !SameTarget(r, kind, resource)
    ensures Revoked(Granted(rows, kind, resource, level, id), id) == rows
  {
    hide SameTarget;
    if rows == [] {
      NewRowGoes(Grant(id, kind, resource, level));
    } else {
      assert rows[0] in rows;
      RevokeUndoesGrant(rows[1..], kind, resource, level, id);
      var rest := Granted(rows[1..], kind, resource, level, id);
      assert Granted(rows, kind, resource, level, id) == [rows[0]] + rest;
      assert ([rows[0]] + rest)[1..] == rest;
    }
  }

  lemma NewRowGoes(r: Grant)
    ensures Revoked([r], r.id) == []
  {
    assert [r][1..] == [];
  }

  // ---- the resolved scope --------------------------------------------------------------

  datatype Scope = Scope(ws: map<WsId, Level>, col: map<ColId, Level>, doc: map<DocId, Level>,
                         colWs: map<ColId, WsId>, docCol: map<DocId, ColId>)
  {
    function NarrowedCols(): set<ColId> {
      set d | d in doc && d in docCol :: docCol[d]
    }

    function NarrowedWs(): set<WsId> {
      (set c | c in col && c in colWs :: colWs[c]) + (set c | c in NarrowedCols() && c in colWs :: colWs[c])
    }

    function TouchedWs(): set<WsId> {
      ws.Keys + NarrowedWs()
    }

    predicate IsEmpty() {
      ws == map[] && col == map[] && doc == map[]
    }

    predicate CollectionReadable(c: ColId, w: WsId) {
      w in TouchedWs() && (w !in NarrowedWs() || c in col)
    }

    predicate DocumentReadable(d: DocId, c: ColId, w: WsId) {
      d in doc || CollectionReadable(c, w)
    }

    predicate CollectionWritable(c: ColId, w: WsId) {
      if c in col then col[c] == Write else w in ws && ws[w] == Write
    }

    predicate DocumentWritable(d: DocId, c: ColId, w: WsId) {
      if d in doc then doc[d] == Write else CollectionWritable(c, w)
    }
  }

  function Resolve(db: Links, rows: seq<Grant>): Scope {
    var col, doc := Held(rows, CollectionKind), Held(rows, DocumentKind);
    var docCol := map d | d in doc && d in db.docs :: db.docs[d];
    var need := col.Keys + docCol.Values;
    Scope(Held(rows, WorkspaceKind), col, doc, map c | c in need && c in db.cols :: db.cols[c], docCol)
  }

  /** `_resolve_scope` */
  method ResolveScope(db: Links, rows: seq<Grant>) returns (scope: Scope)
    ensures scope == Resolve(db, rows)
  {
    var ws: map<WsId, Level>, col: map<ColId, Level>, doc: map<DocId, Level> := map[], map[], map[];
    for i := 0 to |rows|
      invariant ws == Held(rows[..i], WorkspaceKind)
      invariant col == Held(rows[..i], CollectionKind)
      invariant doc == Held(rows[..i], DocumentKind)
    {
      var r := rows[i];
      assert rows[..i + 1][..i] == rows[..i] && rows[..i + 1][i] == r;
      match r.kind {
        case WorkspaceKind => ws := ws[r.resource := r.level];
        case CollectionKind => col := col[r.resource := r.level];
        case DocumentKind => doc := doc[r.resource := r.level];
        case Capability =>
      }
    }
    assert rows[..|rows|] == rows;
    var docCol: map<DocId, ColId> := map[];
    if doc != map[] { docCol := map d | d in doc && d in db.docs :: db.docs[d]; }
    var need := col.Keys + docCol.Values;
    var colWs: map<ColId, WsId> := map[];
    if need != {} { colWs := map c | c in need && c in db.cols :: db.cols[c]; }
    scope := Scope(ws, col, doc, colWs, docCol);
  }

  // ---- what a grant set opens, said without the scope ----------------------------------

  /** Some collection or document grant lies in workspace `w`. */
  predicate Narrows(db: Links, rows: seq<Grant>, w: WsId) {
    || (exists c :: c in Held(rows, CollectionKind) && c in db.cols && db.cols[c] == w)
    || (exists d :: d in Held(rows, DocumentKind) && d in db.docs && db.docs[d] in db.cols && db.cols[db.docs[d]] == w)
  }

  /** A collection is open when it is granted itself, or its workspace is and nothing narrows it. */
  predicate Opens(db: Links, rows: seq<Grant>, c: ColId) {
    && c in db.cols
    && (c in Held(rows, CollectionKind)
        || (db.cols[c] in Held(rows, WorkspaceKind) && !Narrows(db, rows, db.cols[c])))
  }

  lemma NarrowedMeans(db: Links, rows: seq<Grant>, w: WsId)
    ensures w in Resolve(db, rows).NarrowedWs() <==> Narrows(db, rows, w)
  {
    hide Held;
    var s := Resolve(db, rows);
    if c :| c in Held(rows, CollectionKind) && c in db.cols && db.cols[c] == w {
      assert c in s.col && c in s.colWs;
    }
    if d :| d in Held(rows, DocumentKind) && d in db.docs && db.docs[d] in db.cols && db.cols[db.docs[d]] == w {
      assert d in s.docCol && db.docs[d] in s.NarrowedCols();
      assert db.docs[d] in s.docCol.Values && db.docs[d] in s.colWs;
    }
  }

  /** `collection_readable`, as the scope computes it, is exactly that. */
  lemma ReadableMeans(db: Links, rows: seq<Grant>, c: ColId)
    requires c in db.cols
    ensures Resolve(db, rows).CollectionReadable(c, db.cols[c]) <==> Opens(db, rows, c)
  {
    hide Held;
    NarrowedMeans(db, rows, db.cols[c]);
  }

  // ---- enforcement ---------------------------------------------------------------------

  predicate AuthorizeCollection(db: Links, p: Principal, c: ColId, need: Level) {
    match p
    case Master => true
    case NoUser => false
    case User(rows) =>
      var s := Resolve(db, rows);
      || s.IsEmpty()
      || (c in db.cols && s.CollectionReadable(c, db.cols[c]) && (need == Read || s.CollectionWritable(c, db.cols[c])))
  }

  predicate AuthorizeDocument(db: Links, p: Principal, d: DocId, need: Level) {
    match p
    case Master => true
    case NoUser => false
    case User(rows) =>
      var s := Resolve(db, rows);
      || s.IsEmpty()
      || (d in db.docs && db.docs[d] in db.cols &&
          var c := db.docs[d]; var w := db.cols[c];
          s.DocumentReadable(d, c, w) && (need == Read || s.DocumentWritable(d, c, w)))
  }

  predicate AuthorizeWorkspace(db: Links, p: Principal, w: WsId, need: Level) {
    match p
    case Master => true
    case NoUser => false
    case User(rows) =>
      var s := Resolve(db, rows);
      s.IsEmpty() || (w in s.TouchedWs() && (need == Read || (w in s.ws && s.ws[w] == Write)))
  }

  /** `readable_collection_scope`: `None` means no filter. */
  function ReadableCollectionScope(db: Links, p: Principal): Option<set<ColId>> {
    match p
    case Master => None
    case NoUser => Some({})
    case User(rows) =>
      var s := Resolve(db, rows);
      if s.IsEmpty() then None
      else
        var readable := set c | c in s.colWs && s.CollectionReadable(c, s.colWs[c]);
        var openWs := s.TouchedWs() - s.NarrowedWs();
        Some(readable + set c | c in db.cols && db.cols[c] in openWs)
  }

  /** The list for the global views is exactly what the gate lets through, collection by collection. */
  lemma ScopeListsTheReadable(db: Links, p: Principal)
    ensures ReadableCollectionScope(db, p).Some? ==>
      ReadableCollectionScope(db, p).value == set c | c in db.cols && AuthorizeCollection(db, p, c, Read)
    ensures ReadableCollectionScope(db, p).None? <==> forall c, need :: AuthorizeCollection(db, p, c, need)
  {
    hide Held;
    match p
    case Master =>
    case NoUser => assert !AuthorizeCollection(db, p, 0, Read);
    case User(rows) =>
      var s := Resolve(db, rows);
      if !s.IsEmpty() {
        UnknownIsDenied(db, rows);
        forall c | c in db.cols
          ensures c in ReadableCollectionScope(db, p).value <==> s.CollectionReadable(c, db.cols[c])
        {
          hide *;
          ListedMeans(db, rows, c);
        }
      }
  }

  lemma ListedMeans(db: Links, rows: seq<Grant>, c: ColId)
    requires c in db.cols && !Resolve(db, rows).IsEmpty()
    ensures ReadableCollectionScope(db, User(rows)).Some?
    ensures c in ReadableCollectionScope(db, User(rows)).value <==>
      Resolve(db, rows).CollectionReadable(c, db.cols[c])
  {
    hide Held;
    var s := Resolve(db, rows);
    assert c in s.col ==> c in s.colWs;
  }

  /** A scoped user is denied some collection, existing or not. */
  lemma UnknownIsDenied(db: Links, rows: seq<Grant>)
    requires !Resolve(db, rows).IsEmpty()
    ensures exists c :: !AuthorizeCollection(db, User(rows), c, Read)
  {
    hide Held;
    var c := Fresh(db.cols.Keys);
    assert !AuthorizeCollection(db, User(rows), c, Read);
  }

  lemma {:induction false} Fresh(s: set<nat>) returns (x: nat)
    ensures x !in s && forall y :: y in s ==> y < x
    decreases |s|
  {
    if s == {} { return 0; }
    var z :| z in s;
    x := Fresh(s - {z});
    if x <= z { x := z + 1; }
    assert forall y :: y in s ==> y == z || y in s - {z};
  }

  // ---- the list filters ----------------------------------------------------------------

  /** First occurrences, in order. */
  function Dedup(ids: seq<nat>): seq<nat> {
    if ids == [] then []
    else
      var init, last := Dedup(ids[..|ids| - 1]), ids[|ids| - 1];
      if last in init then init else init + [last]
  }

  function Keep(ids: seq<nat>, want: nat -> bool): seq<nat> {
    if ids == [] then []
    else (if want(ids[0]) then [ids[0]] else []) + Keep(ids[1..], want)
  }

  /** `readable_collection_ids` and `writable_collection_ids` */
  function CollectionIds(db: Links, p: Principal, candidates: seq<ColId>, need: Level): seq<ColId> {
    var ids := Dedup(candidates);
    match p
    case Master => ids
    case NoUser => []
    case User(rows) =>
      var s := Resolve(db, rows);
      if s.IsEmpty() then ids
      else Keep(ids, (c: nat) => c in db.cols && s.CollectionReadable(c, db.cols[c])
                          && (need == Read || s.CollectionWritable(c, db.cols[c])))
  }

  lemma {:induction false} DedupHas(ids: seq<nat>)
    ensures forall x :: x in Dedup(ids) <==> x in ids
    ensures forall i, j :: 0 <= i < j < |Dedup(ids)| ==> Dedup(ids)[i] != Dedup(ids)[j]
  {
    if ids != [] {
      DedupHas(ids[..|ids| - 1]);
      assert ids == ids[..|ids| - 1] + [ids[|ids| - 1]];
    }
  }

  lemma {:induction false} KeepSame(ids: seq<nat>, want: nat -> bool, same: nat -> bool)
    requires forall x :: x in ids ==> want(x) == same(x)
    ensures Keep(ids, want) == Keep(ids, same)
  {
    if ids != [] { KeepSame(ids[1..], want, same); }
  }

  lemma {:induction false} KeepAll(ids: seq<nat>, want: nat -> bool)
    ensures (forall x :: x in ids ==> want(x)) ==> Keep(ids, want) == ids
    ensures (forall x :: x in ids ==> !want(x)) ==> Keep(ids, want) == []
  {
    if ids != [] { KeepAll(ids[1..], want); }
  }

  /** `out` are elements of `ids` in order, each read off at its first occurrence. */
  predicate FirstPlaces(ids: seq<nat>, out: seq<nat>, places: seq<nat>) {
    && |places| == |out|
    && Ascending(places)
    && forall k :: 0 <= k < |places| ==> places[k] < |ids| && out[k] == ids[places[k]] && out[k] !in ids[..places[k]]
  }

  lemma {:induction false} DedupPlaces(ids: seq<nat>) returns (places: seq<nat>)
    ensures FirstPlaces(ids, Dedup(ids), places)
  {
    if ids == [] { return []; }
    var init, last := ids[..|ids| - 1], ids[|ids| - 1];
    places := DedupPlaces(init);
    DedupHas(init);
    assert ids == init + [last];
    hide Dedup;
    LastPlace(init, Dedup(init), places, last);
    if last !in init { places := places + [|init|]; }
    DedupStep(ids);
  }

  lemma DedupStep(ids: seq<nat>)
    requires ids != []
    ensures var init, last := ids[..|ids| - 1], ids[|ids| - 1];
      Dedup(ids) == if last in Dedup(init) then Dedup(init) else Dedup(init) + [last]
  {
  }

  lemma LastPlace(ids: seq<nat>, out: seq<nat>, places: seq<nat>, x: nat)
    requires FirstPlaces(ids, out, places)
    ensures FirstPlaces(ids + [x], out, places)
    ensures x !in ids ==> FirstPlaces(ids + [x], out + [x], places + [|ids|])
  {
    assert (ids + [x])[..|ids|] == ids;
    assert forall k :: 0 <= k < |places| ==> (ids + [x])[..places[k]] == ids[..places[k]];
  }

  lemma {:induction false} KeepPlaces(ids: seq<nat>, from: seq<nat>, at: seq<nat>, want: nat -> bool) returns (places: seq<nat>)
    requires FirstPlaces(ids, from, at)
    ensures FirstPlaces(ids, Keep(from, want), places)
    ensures forall x :: x in places ==> x in at
    decreases |from|
  {
    if from == [] { return []; }
    assert forall k :: 0 <= k < |from[1..]| ==> from[1..][k] == from[k + 1] && at[1..][k] == at[k + 1];
    places := KeepPlaces(ids, from[1..], at[1..], want);
    forall x | x in places ensures at[0] < x {
      var k :| 0 <= k < |at[1..]| && at[1..][k] == x;
    }
    if want(from[0]) {
      ghost var rest := places;
      places := [at[0]] + rest;
      FirstPlace(ids, Keep(from[1..], want), rest, from[0], at[0]);
    }
  }

  lemma FirstPlace(ids: seq<nat>, out: seq<nat>, places: seq<nat>, x: nat, at: nat)
    requires FirstPlaces(ids, out, places) && forall y :: y in places ==> at < y
    requires at < |ids| && ids[at] == x && x !in ids[..at]
    ensures FirstPlaces(ids, [x] + out, [at] + places)
  {
    var more := [at] + places;
    assert forall k :: 0 < k < |more| ==> more[k] == places[k - 1] && more[k] in places;
  }

  lemma {:induction false} KeepHas(ids: seq<nat>, want: nat -> bool)
    ensures forall x :: x in Keep(ids, want) <==> x in ids && want(x)
  {
    if ids != [] {
      KeepHas(ids[1..], want);
      assert ids == [ids[0]] + ids[1..];
    }
  }

  /** The filters and the gate agree: the candidates listed are those the gate would let through,
      each once, in the order in which they first occur. */
  lemma FiltersMatchTheGate(db: Links, p: Principal, candidates: seq<ColId>, need: Level)
    ensures forall c :: c in CollectionIds(db, p, candidates, need) <==> c in candidates && AuthorizeCollection(db, p, c, need)
    ensures exists places: seq<nat> :: FirstPlaces(candidates, CollectionIds(db, p, candidates, need), places)
  {
    hide CollectionIds, Dedup, Keep, AuthorizeCollection, FirstPlaces;
    var want := (c: nat) => AuthorizeCollection(db, p, c, need);
    FilteredByTheGate(db, p, candidates, need);
    DedupHas(candidates);
    KeepHas(Dedup(candidates), want);
    var at := DedupPlaces(candidates);
    var places := KeepPlaces(candidates, Dedup(candidates), at, want);
  }

  lemma FilteredByTheGate(db: Links, p: Principal, candidates: seq<ColId>, need: Level)
    ensures CollectionIds(db, p, candidates, need) == Keep(Dedup(candidates), (c: nat) => AuthorizeCollection(db, p, c, need))
  {
    hide Held, Dedup, Keep;
    KeepAll(Dedup(candidates), (c: nat) => AuthorizeCollection(db, p, c, need));
    if p.User? && !Resolve(db, p.rows).IsEmpty() {
      var s := Resolve(db, p.rows);
      KeepSame(Dedup(candidates),
               (c: nat) => c in db.cols && s.CollectionReadable(c, db.cols[c]) && (need == Read || s.CollectionWritable(c, db.cols[c])),
               (c: nat) => AuthorizeCollection(db, p, c, need));
    }
  }

  // ---- the tree ------------------------------------------------------------------------

  datatype ColNode = ColNode(id: ColId, documents: nat)
  datatype WsNode = WsNode(id: WsId, collections: seq<ColNode>, collectionCount: nat, documentCount: nat)

  function DocumentTotal(cols: seq<ColNode>): nat {
    if cols == [] then 0 else cols[0].documents + DocumentTotal(cols[1..])
  }

  /** The total of two lists end to end is the two totals together. */
  lemma {:induction false} TotalAdds(a: seq<ColNode>, b: seq<ColNode>)
    ensures DocumentTotal(a + b) == DocumentTotal(a) + DocumentTotal(b)
    ensures |a| == 1 ==> DocumentTotal(a) == a[0].documents
  {
    if a == [] {
      assert a + b == b;
    } else {
      assert (a + b)[1..] == a[1..] + b;
      TotalAdds(a[1..], b);
    }
  }

  /** The tree lists collections under the workspaces they belong to. */
  predicate TreeOf(db: Links, tree: seq<WsNode>) {
    forall i, j :: 0 <= i < |tree| && 0 <= j < |tree[i].collections| ==>
      var c := tree[i].collections[j].id; c in db.cols && db.cols[c] == tree[i].id
  }

  /** `node` is `was` with exactly its readable collections, in order and as often, counted again. */
  ghost predicate Narrowed(db: Links, p: Principal, was: WsNode, node: WsNode) {
    && node.id == was.id
    && node.collectionCount == |node.collections|
    && node.documentCount == DocumentTotal(node.collections)
    && exists places: seq<nat> :: CollectionsAt(db, p, was.collections, node.collections, places)
  }

  /** `cols` are the collections of `all` at `places`: exactly those the gate lets the principal read. */
  predicate CollectionsAt(db: Links, p: Principal, all: seq<ColNode>, cols: seq<ColNode>, places: seq<nat>) {
    && |places| == |cols| && Ascending(places)
    && (forall k :: 0 <= k < |places| ==> places[k] < |all| && cols[k] == all[places[k]])
    && forall j :: 0 <= j < |all| ==> (j in places <==> AuthorizeCollection(db, p, all[j].id, Read))
  }

  /** `out` are the workspaces of `tree` at `places`, narrowed: exactly those the gate lets the
      principal read. */
  ghost predicate NodesAt(db: Links, p: Principal, tree: seq<WsNode>, out: seq<WsNode>, places: seq<nat>) {
    && |places| == |out| && Ascending(places)
    && (forall k :: 0 <= k < |places| ==> places[k] < |tree| && Narrowed(db, p, tree[places[k]], out[k]))
    && forall i :: 0 <= i < |tree| ==> (i in places <==> AuthorizeWorkspace(db, p, tree[i].id, Read))
  }

  /** `filter_workspace_tree` */
  method FilterWorkspaceTree(db: Links, p: Principal, tree: seq<WsNode>) returns (out: seq<WsNode>)
    requires TreeOf(db, tree)
    ensures p.Master? || (p.User? && Resolve(db, p.rows).IsEmpty()) ==> out == tree
    ensures !(p.Master? || (p.User? && Resolve(db, p.rows).IsEmpty())) ==>
      exists places: seq<nat> :: NodesAt(db, p, tree, out, places)
  {
    hide AuthorizeCollection, AuthorizeWorkspace, Resolve, NodesAt, Narrowed, TreeOf;
    if p.Master? { return tree; }
    if p.NoUser? {
      NothingForNobody(db, tree);
      return [];
    }
    var scope := ResolveScope(db, p.rows);
    if scope.IsEmpty() { return tree; }
    out := [];
    ghost var places: seq<nat> := [];
    NoNodes(db, p);
    for i := 0 to |tree|
      invariant NodesAt(db, p, tree[..i], out, places)
    {
      var was := tree[i];
      assert tree[..i + 1] == tree[..i] + [was];
      WorkspaceGate(db, p.rows, was.id);
      if was.id in scope.TouchedWs() {
        UnderTheirOwn(db, tree, i);
        var cols := KeepReadable(db, p.rows, was, scope);
        var node := WsNode(was.id, cols, |cols|, DocumentTotal(cols));
        assert Narrowed(db, p, was, node) by { NarrowedNode(db, p, was, cols); }
        NodeAdded(db, p, tree[..i], out, places, was, node);
        out, places := out + [node], places + [i];
      } else {
        NodeSkipped(db, p, tree[..i], out, places, was);
      }
    }
    assert tree[..|tree|] == tree;
  }

  lemma UnderTheirOwn(db: Links, tree: seq<WsNode>, i: nat)
    requires TreeOf(db, tree) && i < |tree|
    ensures forall j :: 0 <= j < |tree[i].collections| ==>
      tree[i].collections[j].id in db.cols && db.cols[tree[i].collections[j].id] == tree[i].id
  {
  }

  lemma NarrowedNode(db: Links, p: Principal, was: WsNode, cols: seq<ColNode>)
    requires exists places: seq<nat> :: CollectionsAt(db, p, was.collections, cols, places)
    ensures Narrowed(db, p, was, WsNode(was.id, cols, |cols|, DocumentTotal(cols)))
  {
  }

  lemma NoNodes(db: Links, p: Principal)
    ensures NodesAt(db, p, [], [], [])
  {
  }

  lemma NodeAdded(db: Links, p: Principal, tree: seq<WsNode>, out: seq<WsNode>, places: seq<nat>, was: WsNode, node: WsNode)
    requires NodesAt(db, p, tree, out, places)
    requires AuthorizeWorkspace(db, p, was.id, Read) && Narrowed(db, p, was, node)
    ensures NodesAt(db, p, tree + [was], out + [node], places + [|tree|])
  {
    hide AuthorizeWorkspace, Narrowed;
    var more := places + [|tree|];
    forall i | 0 <= i < |tree| ensures i in more <==> AuthorizeWorkspace(db, p, tree[i].id, Read) {
      assert i in more <==> i in places;
    }
    assert more[|places|] == |tree|;
  }

  lemma NodeSkipped(db: Links, p: Principal, tree: seq<WsNode>, out: seq<WsNode>, places: seq<nat>, was: WsNode)
    requires NodesAt(db, p, tree, out, places) && !AuthorizeWorkspace(db, p, was.id, Read)
    ensures NodesAt(db, p, tree + [was], out, places)
  {
    hide AuthorizeWorkspace, Narrowed;
    assert |tree| !in places;
  }

  lemma NothingForNobody(db: Links, tree: seq<WsNode>)
    ensures NodesAt(db, NoUser, tree, [], [])
  {
  }

  lemma WorkspaceGate(db: Links, rows: seq<Grant>, w: WsId)
    requires !Resolve(db, rows).IsEmpty()
    ensures AuthorizeWorkspace(db, User(rows), w, Read) <==> w in Resolve(db, rows).TouchedWs()
  {
    hide Resolve;
  }

  lemma CollectionGate(db: Links, rows: seq<Grant>, c: ColId)
    requires !Resolve(db, rows).IsEmpty() && c in db.cols
    ensures AuthorizeCollection(db, User(rows), c, Read) <==> Resolve(db, rows).CollectionReadable(c, db.cols[c])
  {
    hide Resolve;
  }

  /** The list of collections `filter_workspace_tree` leaves under one workspace. */
  method KeepReadable(db: Links, rows: seq<Grant>, was: WsNode, scope: Scope) returns (cols: seq<ColNode>)
    requires scope == Resolve(db, rows) && !scope.IsEmpty()
    requires forall j :: 0 <= j < |was.collections| ==>
      was.collections[j].id in db.cols && db.cols[was.collections[j].id] == was.id
    ensures exists places: seq<nat> :: CollectionsAt(db, User(rows), was.collections, cols, places)
  {
    hide AuthorizeCollection, Resolve, Scope.CollectionReadable, CollectionsAt;
    cols := [];
    ghost var all, places: seq<nat> := was.collections, [];
    NoCollections(db, User(rows));
    for j := 0 to |was.collections|
      invariant CollectionsAt(db, User(rows), all[..j], cols, places)
    {
      var c := was.collections[j];
      assert all[..j + 1] == all[..j] + [c];
      CollectionGate(db, rows, c.id);
      if scope.CollectionReadable(c.id, was.id) {
        CollectionAdded(db, User(rows), all[..j], cols, places, c);
        cols, places := cols + [c], places + [j];
      } else {
        CollectionSkipped(db, User(rows), all[..j], cols, places, c);
      }
    }
    assert all[..|all|] == all;
  }

  lemma NoCollections(db: Links, p: Principal)
    ensures CollectionsAt(db, p, [], [], [])
  {
  }

  lemma CollectionAdded(db: Links, p: Principal, all: seq<ColNode>, cols: seq<ColNode>, places: seq<nat>, c: ColNode)
    requires CollectionsAt(db, p, all, cols, places) && AuthorizeCollection(db, p, c.id, Read)
    ensures CollectionsAt(db, p, all + [c], cols + [c], places + [|all|])
  {
    hide AuthorizeCollection;
    var more := places + [|all|];
    forall j | 0 <= j < |all| ensures j in more <==> AuthorizeCollection(db, p, all[j].id, Read) {
      assert j in more <==> j in places;
    }
    assert more[|places|] == |all|;
  }

  lemma CollectionSkipped(db: Links, p: Principal, all: seq<ColNode>, cols: seq<ColNode>, places: seq<nat>, c: ColNode)
    requires CollectionsAt(db, p, all, cols, places) && !AuthorizeCollection(db, p, c.id, Read)
    ensures CollectionsAt(db, p, all + [c], cols, places)
  {
    hide AuthorizeCollection;
    assert |all| !in places;
  }

  /** A narrowed tree on its elements: a workspace is listed exactly when it was and the gate opens
      it; a collection is listed under it exactly when it was and the gate opens that. */
  lemma TreeShowsTheReadable(db: Links, p: Principal, tree: seq<WsNode>, out: seq<WsNode>, places: seq<nat>)
    requires NodesAt(db, p, tree, out, places)
    ensures |out| <= |tree|
    ensures forall w :: (exists node :: node in out && node.id == w) <==>
      AuthorizeWorkspace(db, p, w, Read) && exists was :: was in tree && was.id == w
    ensures forall k :: 0 <= k < |out| ==>
      && places[k] < |tree| && out[k].id == tree[places[k]].id
      && forall c :: c in out[k].collections <==> c in tree[places[k]].collections && AuthorizeCollection(db, p, c.id, Read)
  {
    hide AuthorizeCollection, AuthorizeWorkspace, CollectionsAt;
    PlacesFit(places, |tree|);
    forall w ensures (exists node :: node in out && node.id == w) <==>
      AuthorizeWorkspace(db, p, w, Read) && exists was :: was in tree && was.id == w
    {
      WorkspaceShown(db, p, tree, out, places, w);
    }
    forall k | 0 <= k < |out|
      ensures forall c :: c in out[k].collections <==> c in tree[places[k]].collections && AuthorizeCollection(db, p, c.id, Read)
    {
      assert Narrowed(db, p, tree[places[k]], out[k]);
      var at: seq<nat> :| CollectionsAt(db, p, tree[places[k]].collections, out[k].collections, at);
      CollectionsShown(db, p, tree[places[k]].collections, out[k].collections, at);
    }
  }

  lemma {:induction false} PlacesFit(places: seq<nat>, n: nat)
    requires Ascending(places) && forall k :: 0 <= k < |places| ==> places[k] < n
    ensures |places| <= n
  {
    if places != [] { PlacesFit(places[..|places| - 1], places[|places| - 1]); }
  }

  lemma WorkspaceShown(db: Links, p: Principal, tree: seq<WsNode>, out: seq<WsNode>, places: seq<nat>, w: WsId)
    requires NodesAt(db, p, tree, out, places)
    ensures (exists node :: node in out && node.id == w) <==>
      AuthorizeWorkspace(db, p, w, Read) && exists was :: was in tree && was.id == w
  {
    hide AuthorizeWorkspace;
    if node :| node in out && node.id == w {
      var k :| 0 <= k < |out| && out[k] == node;
      assert places[k] in places && tree[places[k]] in tree && Narrowed(db, p, tree[places[k]], out[k]);
    }
    if was :| was in tree && was.id == w && AuthorizeWorkspace(db, p, w, Read) {
      var i :| 0 <= i < |tree| && tree[i] == was;
      var k :| 0 <= k < |places| && places[k] == i;
      assert Narrowed(db, p, tree[places[k]], out[k]) && out[k] in out;
    }
  }

  lemma CollectionsShown(db: Links, p: Principal, all: seq<ColNode>, cols: seq<ColNode>, places: seq<nat>)
    requires CollectionsAt(db, p, all, cols, places)
    ensures forall c :: c in cols <==> c in all && AuthorizeCollection(db, p, c.id, Read)
  {
    hide AuthorizeCollection;
    forall c ensures c in cols <==> c in all && AuthorizeCollection(db, p, c.id, Read) {
      if c in cols {
        var k :| 0 <= k < |cols| && cols[k] == c;
        assert places[k] in places && all[places[k]] == c;
      }
      if c in all && AuthorizeCollection(db, p, c.id, Read) {
        var j :| 0 <= j < |all| && all[j] == c;
        var k :| 0 <= k < |places| && places[k] == j;
        assert cols[k] == c;
      }
    }
  }

  // ---- the table's code ----------------------------------------------------------------

  datatype Outcome = Done | NotFound

  predicate Exists(db: Links, kind: Kind, resource: nat, workspaces: set<WsId>, capabilities: set<nat>) {
    match kind
    case WorkspaceKind => resource in workspaces
    case CollectionKind => resource in db.cols
    case DocumentKind => resource in db.docs
    case Capability => resource in capabilities
  }

  /** One user's rows of the permission table. */
  class GrantTable {
    var rows: seq<Grant>

    constructor ()
      ensures rows == []
    {
      rows := [];
    }

    /** `grant_permission`; `id` is the new grant's random id. */
    method GrantPermission(db: Links, workspaces: set<WsId>, capabilities: set<nat>, kind: Kind, resource: nat, level: Level, id: nat)
      returns (outcome: Outcome)
      requires Unique(rows) && forall r :: r in rows ==> r.id != id
      modifies this
      ensures Unique(rows)
      ensures Exists(db, kind, resource, workspaces, capabilities) <==> outcome == Done
      ensures rows == if outcome == Done then Granted(old(rows), kind, resource, level, id) else old(rows)
    {
      if !Exists(db, kind, resource, workspaces, capabilities) { return NotFound; }
      GrantedIsUnique(rows, kind, resource, level, id);
      for i := 0 to |rows|
        invariant rows == old(rows)
        invariant Unseen(rows, kind, resource, i)
      {
        if SameTarget(rows[i], kind, resource) {
          GrantedAt(rows, kind, resource, level, id, i);
          rows := rows[i := rows[i].(level := level)];
          return Done;
        }
      }
      GrantedNew(rows, kind, resource, level, id);
      rows := rows + [Grant(id, kind, resource, level)];
      outcome := Done;
    }

    /** `revoke_permission` */
    method RevokePermission(id: nat) returns (outcome: Outcome)
      requires Unique(rows)
      modifies this
      ensures Unique(rows) && rows == Revoked(old(rows), id)
      ensures forall r :: r in rows <==> r in old(rows) && r.id != id
      ensures outcome == NotFound <==> forall r :: r in old(rows) ==> r.id != id
    {
      for i := 0 to |rows|
        invariant rows == old(rows)
        invariant forall j :: 0 <= j < i ==> rows[j].id != id
      {
        if rows[i].id == id {
          RevokedAt(rows, id, i);
          rows := rows[..i] + rows[i + 1..];
          return Done;
        }
      }
      RevokedNone(rows, id);
      outcome := NotFound;
    }
  }

  lemma {:induction false} RevokedNone(rows: seq<Grant>, id: nat)
    requires forall j :: 0 <= j < |rows| ==> rows[j].id != id
    ensures Revoked(rows, id) == rows
  {
    if rows != [] {
      assert forall j :: 0 < j < |rows| ==> rows[j] == rows[1..][j - 1];
      RevokedNone(rows[1..], id);
    }
  }

  lemma {:induction false} RevokedAt(rows: seq<Grant>, id: nat, i: nat)
    requires i < |rows| && rows[i].id == id && forall j :: 0 <= j < |rows| && j != i ==> rows[j].id != id
    ensures Revoked(rows, id) == rows[..i] + rows[i + 1..]
  {
    assert forall j :: 0 < j < |rows| ==> rows[j] == rows[1..][j - 1];
    if i == 0 {
      RevokedNone(rows[1..], id);
      assert rows[..0] + rows[1..] == rows[1..];
    } else {
      RevokedAt(rows[1..], id, i - 1);
      assert rows[..i] == [rows[0]] + rows[1..][..i - 1] && rows[1..][i..] == rows[i + 1..];
    }
  }

  // ---- what a grant changes ------------------------------------------------------------

  predicate CanRead(db: Links, rows: seq<Grant>, c: ColId) {
    AuthorizeCollection(db, User(rows), c, Read)
  }

  predicate Scoped(db: Links, rows: seq<Grant>) {
    !Resolve(db, rows).IsEmpty()
  }

  lemma CanReadMeans(db: Links, rows: seq<Grant>, c: ColId)
    ensures CanRead(db, rows, c) <==> !Scoped(db, rows) || Opens(db, rows, c)
  {
    hide Resolve, Opens;
    if c in db.cols { ReadableMeans(db, rows, c); } else { OpensExisting(db, rows, c); }
  }

  lemma OpensExisting(db: Links, rows: seq<Grant>, c: ColId)
    ensures Opens(db, rows, c) ==> c in db.cols
  {
  }

  lemma ScopedMeans(db: Links, rows: seq<Grant>)
    ensures Scoped(db, rows) <==>
      Held(rows, WorkspaceKind) != map[] || Held(rows, CollectionKind) != map[] || Held(rows, DocumentKind) != map[]
  {
    hide Held;
  }

  /** Writing needs reading, for collections, documents and workspaces. */
  lemma WritableIsReadable(db: Links, p: Principal, x: nat)
    ensures AuthorizeCollection(db, p, x, Write) ==> AuthorizeCollection(db, p, x, Read)
    ensures AuthorizeDocument(db, p, x, Write) ==> AuthorizeDocument(db, p, x, Read)
    ensures AuthorizeWorkspace(db, p, x, Write) ==> AuthorizeWorkspace(db, p, x, Read)
  {
    hide Resolve;
  }

  /** A collection grant opens that collection, and closes its workspace's collections that no
      grant names; nothing else changes. An unrestricted user keeps that collection alone. */
  lemma CollectionGrantEffect(db: Links, rows: seq<Grant>, id: nat, c: ColId, level: Level, x: ColId)
    requires Unique(rows) && (forall r :: r in rows ==> r.id != id) && c in db.cols
    ensures CanRead(db, Granted(rows, CollectionKind, c, level, id), x) <==>
      x == c || (Scoped(db, rows) && CanRead(db, rows, x)
                 && (db.cols[x] == db.cols[c] ==> x in Held(rows, CollectionKind)))
  {
    hide Held, Granted, CanRead, Scoped, Narrows;
    var after := Granted(rows, CollectionKind, c, level, id);
    forall k: Kind { HeldGranted(rows, CollectionKind, c, level, id, k); }
    assert Held(after, CollectionKind) != map[] by { assert c in Held(after, CollectionKind); }
    ScopedMeans(db, after);
    CanReadMeans(db, after, x);
    CanReadMeans(db, rows, x);
    EmptyHeld(db, rows);
    if x in db.cols {
      NarrowsMore(db, rows, after, db.cols[x], CollectionKind, c, level);
    }
  }

  lemma EmptyHeld(db: Links, rows: seq<Grant>)
    ensures !Scoped(db, rows) ==>
      Held(rows, WorkspaceKind) == Held(rows, CollectionKind) == Held(rows, DocumentKind) == map[]
  {
    hide Held;
  }

  /** Where a new collection or document grant lies. */
  function Place(db: Links, kind: Kind, x: nat): Option<WsId> {
    if kind == CollectionKind && x in db.cols then Some(db.cols[x])
    else if kind == DocumentKind && x in db.docs && db.docs[x] in db.cols then Some(db.cols[db.docs[x]])
    else None
  }

  lemma NarrowsMore(db: Links, rows: seq<Grant>, after: seq<Grant>, w: WsId, kind: Kind, x: nat, level: Level)
    requires forall k: Kind :: Held(after, k) == if k == kind then Held(rows, kind)[x := level] else Held(rows, k)
    ensures Narrows(db, after, w) <==> Narrows(db, rows, w) || Place(db, kind, x) == Some(w)
  {
    hide Held;
    var held := Held(rows, kind);
    assert Held(after, CollectionKind) == if CollectionKind == kind then held[x := level] else Held(rows, CollectionKind);
    assert Held(after, DocumentKind) == if DocumentKind == kind then held[x := level] else Held(rows, DocumentKind);
    if Place(db, kind, x) == Some(w) { assert x in Held(after, kind); }
    if c :| c in Held(rows, CollectionKind) && c in db.cols && db.cols[c] == w { assert c in Held(after, CollectionKind); }
    if d :| d in Held(rows, DocumentKind) && d in db.docs && db.docs[d] in db.cols && db.cols[db.docs[d]] == w {
      assert d in Held(after, DocumentKind);
    }
  }

  /** A document grant opens no collection; it closes its workspace's collections no grant names. */
  lemma DocumentGrantEffect(db: Links, rows: seq<Grant>, id: nat, d: DocId, level: Level, x: ColId)
    requires Unique(rows) && (forall r :: r in rows ==> r.id != id) && d in db.docs && db.docs[d] in db.cols
    ensures CanRead(db, Granted(rows, DocumentKind, d, level, id), x) <==>
      Scoped(db, rows) && CanRead(db, rows, x)
      && (db.cols[x] == db.cols[db.docs[d]] ==> x in Held(rows, CollectionKind))
  {
    hide Held, Granted, CanRead, Scoped, Narrows;
    var after := Granted(rows, DocumentKind, d, level, id);
    forall k: Kind { HeldGranted(rows, DocumentKind, d, level, id, k); }
    assert Held(after, DocumentKind) != map[] by { assert d in Held(after, DocumentKind); }
    ScopedMeans(db, after);
    CanReadMeans(db, after, x);
    CanReadMeans(db, rows, x);
    EmptyHeld(db, rows);
    if x in db.cols {
      NarrowsMore(db, rows, after, db.cols[x], DocumentKind, d, level);
    }
  }

  /** A workspace grant opens that workspace's collections, unless another grant narrows it. */
  lemma WorkspaceGrantEffect(db: Links, rows: seq<Grant>, id: nat, w: WsId, level: Level, x: ColId)
    requires Unique(rows) && forall r :: r in rows ==> r.id != id
    ensures CanRead(db, Granted(rows, WorkspaceKind, w, level, id), x) <==>
      || (Scoped(db, rows) && CanRead(db, rows, x))
      || (x in db.cols && db.cols[x] == w && !Narrows(db, rows, w))
  {
    hide Held, Granted, CanRead, Scoped, Narrows;
    var after := Granted(rows, WorkspaceKind, w, level, id);
    forall k: Kind { HeldGranted(rows, WorkspaceKind, w, level, id, k); }
    assert Held(after, WorkspaceKind) != map[] by { assert w in Held(after, WorkspaceKind); }
    ScopedMeans(db, after);
    CanReadMeans(db, after, x);
    CanReadMeans(db, rows, x);
    EmptyHeld(db, rows);
    if x in db.cols {
      NarrowsMore(db, rows, after, db.cols[x], WorkspaceKind, w, level);
    }
  }

  /** A capability grant changes no data access. */
  lemma CapabilityGrantEffect(db: Links, rows: seq<Grant>, id: nat, cap: nat, level: Level)
    requires Unique(rows) && forall r :: r in rows ==> r.id != id
    ensures Resolve(db, Granted(rows, Capability, cap, level, id)) == Resolve(db, rows)
  {
    hide Held, Granted;
    forall k: Kind { HeldGranted(rows, Capability, cap, level, id, k); }
  }

  /** A document grant makes readable that document and no other. */
  lemma DocumentGrantOpensOne(db: Links, rows: seq<Grant>, id: nat, d: DocId, level: Level, y: DocId)
    requires Unique(rows) && (forall r :: r in rows ==> r.id != id) && d in db.docs && db.docs[d] in db.cols
    ensures var after := User(Granted(rows, DocumentKind, d, level, id));
      && AuthorizeDocument(db, after, d, Read)
      && (AuthorizeDocument(db, after, y, Read) ==> y == d || AuthorizeDocument(db, User(rows), y, Read))
  {
    hide Held, Granted;
    var after := Granted(rows, DocumentKind, d, level, id);
    forall k: Kind { HeldGranted(rows, DocumentKind, d, level, id, k); }
    assert d in Held(after, DocumentKind);
    if y in db.docs && db.docs[y] in db.cols {
      var c := db.docs[y];
      DocumentGrantEffect(db, rows, id, d, level, c);
      DocumentMeans(db, rows, y);
      DocumentMeans(db, after, y);
    }
    DocumentMeans(db, after, d);
  }

  lemma DocumentMeans(db: Links, rows: seq<Grant>, y: DocId)
    requires y in db.docs && db.docs[y] in db.cols
    ensures AuthorizeDocument(db, User(rows), y, Read) <==> y in Held(rows, DocumentKind) || CanRead(db, rows, db.docs[y])
  {
    hide Held;
  }
}
