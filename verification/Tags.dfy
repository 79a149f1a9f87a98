/** The tag tables: tags scoped per workspace, three join tables, and the tag operations of
    the API. An operation is `None` when the source answers with an HTTP error. */
module Tags {
  import opened Ids

  datatype Tag = Tag(ws: WsId, name: string)

  datatype Tables = Tables(
    tags: map<TagId, Tag>,
    wsTags: set<(WsId, TagId)>,
    colTags: set<(ColId, TagId)>,
    docTags: set<(DocId, TagId)>)

  datatype Target = OnWorkspace(ws: WsId) | OnCollection(col: ColId) | OnDocument(doc: DocId)

  predicate Attached(t: Tables, target: Target, id: TagId) {
    match target
    case OnWorkspace(ws) => (ws, id) in t.wsTags
    case OnCollection(col) => (col, id) in t.colTags
    case OnDocument(doc) => (doc, id) in t.docTags
  }

  /** Tag `id` reaches document `doc` through one of the three inheritance levels. */
  ghost predicate Reaches(t: Tables, home: map<ColId, WsId>, col: ColId, doc: DocId, id: TagId) {
    || (col in home && Attached(t, OnWorkspace(home[col]), id))
    || Attached(t, OnCollection(col), id)
    || Attached(t, OnDocument(doc), id)
  }

  ghost function Effective(t: Tables, home: map<ColId, WsId>, col: ColId, doc: DocId): set<string> {
    set id | id in t.tags && Reaches(t, home, col, doc, id) :: t.tags[id].name
  }

  // ---- operations ----------------------------------------------------------------------

  ghost predicate NameTaken(t: Tables, ws: WsId, name: string, except: set<TagId>) {
    exists id :: id in t.tags && id !in except && t.tags[id] == Tag(ws, name)
  }

  ghost predicate HasTag(t: Tables, ws: WsId, id: TagId) {
    id in t.tags && t.tags[id].ws == ws
  }

  ghost function Create(t: Tables, ws: WsId, id: TagId, name: string): Option<Tables> {
    if id in t.tags || NameTaken(t, ws, name, {}) then None
    else Some(t.(tags := t.tags[id := Tag(ws, name)]))
  }

  ghost function Rename(t: Tables, ws: WsId, id: TagId, name: string): Option<Tables> {
    if !HasTag(t, ws, id) || NameTaken(t, ws, name, {id}) then None
    else Some(t.(tags := t.tags[id := Tag(ws, name)]))
  }

  ghost function Without(rows: set<(nat, TagId)>, id: TagId): set<(nat, TagId)> {
    set r | r in rows && r.1 != id
  }

  ghost function Delete(t: Tables, ws: WsId, id: TagId): Option<Tables> {
    if !HasTag(t, ws, id) then None
    else Some(Tables(t.tags - {id}, Without(t.wsTags, id), Without(t.colTags, id), Without(t.docTags, id)))
  }

  /** The rows of one join table once every assignment of `source` has moved to `target`. */
  ghost function Repointed(rows: set<(nat, TagId)>, source: TagId, target: TagId): set<(nat, TagId)> {
    set r | r in rows :: if r.1 == source then (r.0, target) else r
  }

  ghost function Merge(t: Tables, ws: WsId, source: TagId, target: TagId): Option<Tables> {
    if source == target || !HasTag(t, ws, source) || !HasTag(t, ws, target) then None
    else Some(Tables(t.tags - {source}, Repointed(t.wsTags, source, target),
                     Repointed(t.colTags, source, target), Repointed(t.docTags, source, target)))
  }

  ghost function Attach(t: Tables, target: Target, id: TagId): Tables {
    match target
    case OnWorkspace(ws) => t.(wsTags := t.wsTags + {(ws, id)})
    case OnCollection(col) => t.(colTags := t.colTags + {(col, id)})
    case OnDocument(doc) => t.(docTags := t.docTags + {(doc, id)})
  }

  ghost function Detach(t: Tables, target: Target, id: TagId): Tables {
    match target
    case OnWorkspace(ws) => t.(wsTags := t.wsTags - {(ws, id)})
    case OnCollection(col) => t.(colTags := t.colTags - {(col, id)})
    case OnDocument(doc) => t.(docTags := t.docTags - {(doc, id)})
  }

  /** Deleting a document row cascades to its tag assignments. */
  function DropDocument(t: Tables, doc: DocId): Tables {
    t.(docTags := set r | r in t.docTags && r.0 != doc)
  }

  // ---- which documents an operation can affect -----------------------------------------

  /** A tag is only ever attached inside its own workspace. */
  ghost predicate Scoped(t: Tables, home: map<ColId, WsId>, colOf: map<DocId, ColId>) {
    && (forall ws, id :: (ws, id) in t.wsTags ==> HasTag(t, ws, id))
    && (forall col, id :: (col, id) in t.colTags ==> col in home && HasTag(t, home[col], id))
    && (forall doc, id :: (doc, id) in t.docTags ==>
          doc in colOf && colOf[doc] in home && HasTag(t, home[colOf[doc]], id))
  }

  /** A merge moves each assignment of the source tag to the target and touches nothing else. */
  lemma MergeMovesAssignments(t: Tables, ws: WsId, source: TagId, target: TagId, place: Target, id: TagId)
    requires Merge(t, ws, source, target).Some?
    ensures Attached(Merge(t, ws, source, target).value, place, id) <==>
            id != source && (Attached(t, place, id) || (id == target && Attached(t, place, source)))
  {
    var k := if place.OnWorkspace? then place.ws else if place.OnCollection? then place.col else place.doc;
    RepointedRows(t.wsTags, source, target, k, id);
    RepointedRows(t.colTags, source, target, k, id);
    RepointedRows(t.docTags, source, target, k, id);
  }

  lemma RepointedRows(rows: set<(nat, TagId)>, source: TagId, target: TagId, k: nat, id: TagId)
    requires source != target
    ensures (k, id) in Repointed(rows, source, target) <==>
            id != source && ((k, id) in rows || (id == target && (k, source) in rows))
  {
    if (k, id) in rows && id != source {
      assert (k, id) == if (k, id).1 == source then ((k, id).0, target) else (k, id);
    }
    if id == target && (k, source) in rows {
      assert (k, target) == if (k, source).1 == source then ((k, source).0, target) else (k, source);
    }
  }

  /** Two table states look the same to a document: the same tags reach it under the same names. */
  ghost predicate SameView(t: Tables, t': Tables, home: map<ColId, WsId>, col: ColId, doc: DocId) {
    forall id ::
      (id in t.tags && Reaches(t, home, col, doc, id)) == (id in t'.tags && Reaches(t', home, col, doc, id))
      && (id in t.tags && Reaches(t, home, col, doc, id) ==> t.tags[id].name == t'.tags[id].name)
  }

  lemma SameViewSameEffective(t: Tables, t': Tables, home: map<ColId, WsId>, col: ColId, doc: DocId)
    requires SameView(t, t', home, col, doc)
    ensures Effective(t, home, col, doc) == Effective(t', home, col, doc)
  {
    var a, b := Effective(t, home, col, doc), Effective(t', home, col, doc);
    forall n | n in a ensures n in b {
      var id :| id in t.tags && Reaches(t, home, col, doc, id) && t.tags[id].name == n;
      assert id in t'.tags && Reaches(t', home, col, doc, id) && t'.tags[id].name == n;
    }
    forall n | n in b ensures n in a {
      var id :| id in t'.tags && Reaches(t', home, col, doc, id) && t'.tags[id].name == n;
      assert id in t.tags && Reaches(t, home, col, doc, id) && t.tags[id].name == n;
    }
  }

  // ---- an operation on one workspace leaves documents of the others alone ----------------

  lemma ForeignTagNeverReaches(t: Tables, home: map<ColId, WsId>, colOf: map<DocId, ColId>, doc: DocId, id: TagId)
    requires Scoped(t, home, colOf) && doc in colOf && colOf[doc] in home
    requires id in t.tags ==> t.tags[id].ws != home[colOf[doc]]
    ensures !Reaches(t, home, colOf[doc], doc, id)
  {
  }

  lemma CreateElsewhere(t: Tables, home: map<ColId, WsId>, colOf: map<DocId, ColId>, ws: WsId, id: TagId, name: string)
    requires Scoped(t, home, colOf) && Create(t, ws, id, name).Some?
    ensures var t' := Create(t, ws, id, name).value;
      && Scoped(t', home, colOf)
      && forall doc :: doc in colOf && colOf[doc] in home ==>
           Effective(t', home, colOf[doc], doc) == Effective(t, home, colOf[doc], doc)
  {
    var t' := Create(t, ws, id, name).value;
    forall doc | doc in colOf && colOf[doc] in home
      ensures Effective(t', home, colOf[doc], doc) == Effective(t, home, colOf[doc], doc)
    {
      assert SameView(t, t', home, colOf[doc], doc);
      SameViewSameEffective(t, t', home, colOf[doc], doc);
    }
  }

  lemma RenameElsewhere(t: Tables, home: map<ColId, WsId>, colOf: map<DocId, ColId>, ws: WsId, id: TagId, name: string)
    requires Scoped(t, home, colOf) && Rename(t, ws, id, name).Some?
    ensures var t' := Rename(t, ws, id, name).value;
      && Scoped(t', home, colOf)
      && forall doc :: doc in colOf && colOf[doc] in home && home[colOf[doc]] != ws ==>
           Effective(t', home, colOf[doc], doc) == Effective(t, home, colOf[doc], doc)
  {
    var t' := Rename(t, ws, id, name).value;
    forall doc | doc in colOf && colOf[doc] in home && home[colOf[doc]] != ws
      ensures Effective(t', home, colOf[doc], doc) == Effective(t, home, colOf[doc], doc)
    {
      ForeignTagNeverReaches(t, home, colOf, doc, id);
      assert SameView(t, t', home, colOf[doc], doc);
      SameViewSameEffective(t, t', home, colOf[doc], doc);
    }
  }

  lemma DeleteElsewhere(t: Tables, home: map<ColId, WsId>, colOf: map<DocId, ColId>, ws: WsId, id: TagId)
    requires Scoped(t, home, colOf) && Delete(t, ws, id).Some?
    ensures var t' := Delete(t, ws, id).value;
      && Scoped(t', home, colOf)
      && forall doc :: doc in colOf && colOf[doc] in home && home[colOf[doc]] != ws ==>
           Effective(t', home, colOf[doc], doc) == Effective(t, home, colOf[doc], doc)
  {
    var t' := Delete(t, ws, id).value;
    forall doc | doc in colOf && colOf[doc] in home && home[colOf[doc]] != ws
      ensures Effective(t', home, colOf[doc], doc) == Effective(t, home, colOf[doc], doc)
    {
      ForeignTagNeverReaches(t, home, colOf, doc, id);
      assert SameView(t, t', home, colOf[doc], doc);
      SameViewSameEffective(t, t', home, colOf[doc], doc);
    }
  }

  lemma MergeScoped(t: Tables, home: map<ColId, WsId>, colOf: map<DocId, ColId>, ws: WsId, source: TagId, target: TagId)
    requires Scoped(t, home, colOf) && Merge(t, ws, source, target).Some?
    ensures Scoped(Merge(t, ws, source, target).value, home, colOf)
  {
  }

  lemma MergeElsewhere(t: Tables, home: map<ColId, WsId>, colOf: map<DocId, ColId>, ws: WsId, source: TagId, target: TagId)
    requires Scoped(t, home, colOf) && Merge(t, ws, source, target).Some?
    ensures var t' := Merge(t, ws, source, target).value;
      && Scoped(t', home, colOf)
      && forall doc :: doc in colOf && colOf[doc] in home && home[colOf[doc]] != ws ==>
           Effective(t', home, colOf[doc], doc) == Effective(t, home, colOf[doc], doc)
  {
    var t' := Merge(t, ws, source, target).value;
    MergeScoped(t, home, colOf, ws, source, target);
    forall doc | doc in colOf && colOf[doc] in home && home[colOf[doc]] != ws
      ensures Effective(t', home, colOf[doc], doc) == Effective(t, home, colOf[doc], doc)
    {
      ForeignTagNeverReaches(t, home, colOf, doc, source);
      ForeignTagNeverReaches(t, home, colOf, doc, target);
      forall id ensures Reaches(t', home, colOf[doc], doc, id) == Reaches(t, home, colOf[doc], doc, id) {
        MergeMovesAssignments(t, ws, source, target, OnWorkspace(home[colOf[doc]]), id);
        MergeMovesAssignments(t, ws, source, target, OnCollection(colOf[doc]), id);
        MergeMovesAssignments(t, ws, source, target, OnDocument(doc), id);
      }
      assert SameView(t, t', home, colOf[doc], doc);
      SameViewSameEffective(t, t', home, colOf[doc], doc);
    }
  }

  /** The document inherits from the target. */
  ghost predicate Under(home: map<ColId, WsId>, target: Target, col: ColId, doc: DocId) {
    match target
    case OnWorkspace(ws) => col in home && home[col] == ws
    case OnCollection(c) => c == col
    case OnDocument(d) => d == doc
  }

  lemma AttachElsewhere(t: Tables, home: map<ColId, WsId>, target: Target, id: TagId, col: ColId, doc: DocId)
    requires !Under(home, target, col, doc)
    ensures Effective(Attach(t, target, id), home, col, doc) == Effective(t, home, col, doc)
    ensures Effective(Detach(t, target, id), home, col, doc) == Effective(t, home, col, doc)
  {
    assert SameView(t, Attach(t, target, id), home, col, doc);
    SameViewSameEffective(t, Attach(t, target, id), home, col, doc);
    assert SameView(t, Detach(t, target, id), home, col, doc);
    SameViewSameEffective(t, Detach(t, target, id), home, col, doc);
  }

  lemma DropElsewhere(t: Tables, home: map<ColId, WsId>, gone: DocId, col: ColId, doc: DocId)
    requires doc != gone
    ensures Effective(DropDocument(t, gone), home, col, doc) == Effective(t, home, col, doc)
  {
    assert SameView(t, DropDocument(t, gone), home, col, doc);
    SameViewSameEffective(t, DropDocument(t, gone), home, col, doc);
  }
}
