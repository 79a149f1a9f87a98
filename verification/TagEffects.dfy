/** What each tag operation does, exactly: which requests it refuses, which tags and assignments it
    leaves, and which tags a document carries afterwards, all from the tables before it. */
module TagEffects {
  import opened Ids
  import opened Tags
  import P = Protocol
  import ProtocolTags

  /** Tag names by the rows of the tables: the workspace's, the collection's and the document's own. */
  lemma EffectiveRows(t: Tables, home: map<ColId, WsId>, col: ColId, doc: DocId, n: string)
    ensures n in Effective(t, home, col, doc) <==>
      exists id :: id in t.tags && t.tags[id].name == n
        && ((col in home && (home[col], id) in t.wsTags) || (col, id) in t.colTags || (doc, id) in t.docTags)
  {
  }

  /** The same by targets: some tag of that name is attached somewhere the document is under. */
  ghost predicate Carried(t: Tables, home: map<ColId, WsId>, col: ColId, doc: DocId, q: Target, x: TagId) {
    x in t.tags && Under(home, q, col, doc) && Attached(t, q, x)
  }

  lemma EffectiveByTarget(t: Tables, home: map<ColId, WsId>, col: ColId, doc: DocId, n: string)
    ensures n in Effective(t, home, col, doc) <==> exists q, x :: Carried(t, home, col, doc, q, x) && t.tags[x].name == n
  {
    if n in Effective(t, home, col, doc) {
      var x :| x in t.tags && Reaches(t, home, col, doc, x) && t.tags[x].name == n;
      var q := if Attached(t, OnDocument(doc), x) then OnDocument(doc)
               else if Attached(t, OnCollection(col), x) then OnCollection(col) else OnWorkspace(home[col]);
      assert Carried(t, home, col, doc, q, x);
    }
    if q, x :| Carried(t, home, col, doc, q, x) && t.tags[x].name == n {
      assert Reaches(t, home, col, doc, x);
    }
  }

  // ---- tags and assignments ------------------------------------------------------------

  lemma AttachExactly(t: Tables, p: Target, id: TagId, q: Target, x: TagId)
    ensures Attached(Attach(t, p, id), q, x) <==> Attached(t, q, x) || (q == p && x == id)
    ensures Attach(t, p, id).tags == t.tags
  {
  }

  lemma DetachExactly(t: Tables, p: Target, id: TagId, q: Target, x: TagId)
    ensures Attached(Detach(t, p, id), q, x) <==> Attached(t, q, x) && !(q == p && x == id)
    ensures Detach(t, p, id).tags == t.tags
  {
  }

  /** Creating is refused exactly for an identifier in use or a name the workspace has; otherwise the
      new tag is there, attached nowhere it was not, and the others are as they were. */
  lemma CreateExactly(t: Tables, ws: WsId, id: TagId, name: string, q: Target, x: TagId)
    ensures Create(t, ws, id, name).Some? <==>
      id !in t.tags && forall y :: y in t.tags && t.tags[y].ws == ws ==> t.tags[y].name != name
    ensures Create(t, ws, id, name).Some? ==>
      var t' := Create(t, ws, id, name).value;
      && t'.tags.Keys == t.tags.Keys + {id} && t'.tags[id].ws == ws && t'.tags[id].name == name
      && (x in t.tags ==> t'.tags[x] == t.tags[x]) && (Attached(t', q, x) <==> Attached(t, q, x))
  {
  }

  /** Renaming is refused exactly for a tag the workspace has not or a name another of its tags has;
      otherwise that tag has the new name, and everything else is as it was. */
  lemma RenameExactly(t: Tables, ws: WsId, id: TagId, name: string, q: Target, x: TagId)
    ensures Rename(t, ws, id, name).Some? <==>
      && id in t.tags && t.tags[id].ws == ws
      && forall y :: y in t.tags && y != id && t.tags[y].ws == ws ==> t.tags[y].name != name
    ensures Rename(t, ws, id, name).Some? ==>
      var t' := Rename(t, ws, id, name).value;
      && t'.tags.Keys == t.tags.Keys && t'.tags[id].ws == ws && t'.tags[id].name == name
      && (x in t.tags && x != id ==> t'.tags[x] == t.tags[x]) && (Attached(t', q, x) <==> Attached(t, q, x))
  {
  }

  /** Deleting is refused exactly for a tag the workspace has not; otherwise the tag and all its
      assignments are gone, and nothing else. */
  lemma DeleteExactly(t: Tables, ws: WsId, id: TagId, q: Target, x: TagId)
    ensures Delete(t, ws, id).Some? <==> id in t.tags && t.tags[id].ws == ws
    ensures Delete(t, ws, id).Some? ==>
      var t' := Delete(t, ws, id).value;
      && t'.tags.Keys == t.tags.Keys - {id} && (x in t.tags && x != id ==> t'.tags[x] == t.tags[x])
      && (Attached(t', q, x) <==> Attached(t, q, x) && x != id)
  {
  }

  /** Merging is refused exactly for one tag twice or a tag the workspace has not; otherwise the source
      is gone and its assignments are the target's. */
  lemma MergeExactly(t: Tables, ws: WsId, source: TagId, target: TagId, q: Target, x: TagId)
    ensures Merge(t, ws, source, target).Some? <==>
      && source != target && source in t.tags && t.tags[source].ws == ws && target in t.tags && t.tags[target].ws == ws
    ensures Merge(t, ws, source, target).Some? ==>
      var t' := Merge(t, ws, source, target).value;
      && t'.tags.Keys == t.tags.Keys - {source} && (x in t.tags && x != source ==> t'.tags[x] == t.tags[x])
      && (Attached(t', q, x) <==> x != source && (Attached(t, q, x) || (x == target && Attached(t, q, source))))
  {
    if Merge(t, ws, source, target).Some? { MergeMovesAssignments(t, ws, source, target, q, x); }
  }

  /** Dropping a document's row takes its own assignments along, and no others. */
  lemma DropExactly(t: Tables, doc: DocId, q: Target, x: TagId)
    ensures Attached(DropDocument(t, doc), q, x) <==> Attached(t, q, x) && q != OnDocument(doc)
    ensures DropDocument(t, doc).tags == t.tags
  {
  }

  // ---- what a document carries afterwards ----------------------------------------------

  /** The name a carried tag gives the document after the call; `None` if the call takes it away. */
  ghost function NameAfter(t: Tables, call: P.TagCall, q: Target, x: TagId): Option<string>
    requires x in t.tags
  {
    match call
    case RenameTag(_, id, name) => Some(if x == id then name else t.tags[x].name)
    case DeleteTag(_, id) => if x == id then None else Some(t.tags[x].name)
    case MergeTags(_, source, target) =>
      if x != source then Some(t.tags[x].name) else if target in t.tags then Some(t.tags[target].name) else None
    case UnassignTag(_, p, id) => if q == p && x == id then None else Some(t.tags[x].name)
    case _ => Some(t.tags[x].name)
  }

  /** The call is one the source answers with success. */
  ghost predicate Accepted(e: P.Env, s: P.State, call: P.TagCall) {
    var t := s.tags;
    match call
    case CreateTag(ws, id, name) => id !in t.tags && forall y :: y in t.tags && t.tags[y].ws == ws ==> t.tags[y].name != name
    case RenameTag(ws, id, name) =>
      && id in t.tags && t.tags[id].ws == ws
      && forall y :: y in t.tags && y != id && t.tags[y].ws == ws ==> t.tags[y].name != name
    case DeleteTag(ws, id) => id in t.tags && t.tags[id].ws == ws
    case MergeTags(ws, source, target) =>
      source != target && source in t.tags && t.tags[source].ws == ws && target in t.tags && t.tags[target].ws == ws
    case AssignTag(ws, p, id) => id in t.tags && t.tags[id].ws == ws && InWs(e, s, ws, p)
    case UnassignTag(ws, p, id) => id in t.tags && t.tags[id].ws == ws && InWs(e, s, ws, p)
  }

  /** The workspace itself, a collection of it, or an active document of one. */
  ghost predicate InWs(e: P.Env, s: P.State, ws: WsId, p: Target) {
    match p
    case OnWorkspace(w) => w == ws
    case OnCollection(c) => c in e.home && e.home[c] == ws
    case OnDocument(d) =>
      d in s.docs && s.docs[d].status == P.Active && s.docs[d].col in e.home && e.home[s.docs[d].col] == ws
  }

  /** The name the call adds to documents under its target. */
  ghost predicate Adds(t: Tables, home: map<ColId, WsId>, col: ColId, doc: DocId, call: P.TagCall, n: string) {
    call.AssignTag? && call.tag in t.tags && t.tags[call.tag].name == n && Under(home, call.place, col, doc)
  }

  /** The document keeps the name, or gets it from a tag it carried before. */
  ghost predicate Keeps(t: Tables, home: map<ColId, WsId>, col: ColId, doc: DocId, call: P.TagCall, n: string) {
    exists q, x :: Carried(t, home, col, doc, q, x) && NameAfter(t, call, q, x) == Some(n)
  }

  /** After a call that is accepted a document carries exactly the names it keeps and the one the call
      adds; a refused call changes nothing. */
  lemma EffectiveAfterCall(e: P.Env, s: P.State, call: P.TagCall, d: DocId, n: string)
    requires d in s.docs && Scoped(s.tags, e.home, s.issued) && d in s.issued && s.issued[d] == s.docs[d].col
    ensures var s' := P.ApplyTagging(e, s, call);
      && d in s'.docs
      && (n in ProtocolTags.EffectiveOf(e, s', d) <==>
            if Accepted(e, s, call)
            then Keeps(s.tags, e.home, s.docs[d].col, d, call, n) || Adds(s.tags, e.home, s.docs[d].col, d, call, n)
            else n in ProtocolTags.EffectiveOf(e, s, d))
  {
    hide Effective, Attached, Accepted, Keeps, Adds, Scoped, P.ApplyTagging, TablesAfter;
    var t, col := s.tags, s.docs[d].col;
    AcceptedExactly(e, s, call);
    if Accepted(e, s, call) {
      var t' := TablesAfter(t, call);
      EffectiveByTarget(t', e.home, col, d, n);
      CarriedAfter(e, s, call, d, n);
    }
  }

  ghost function TablesAfter(t: Tables, call: P.TagCall): Tables {
    match call
    case CreateTag(ws, id, name) => if Create(t, ws, id, name).Some? then Create(t, ws, id, name).value else t
    case RenameTag(ws, id, name) => if Rename(t, ws, id, name).Some? then Rename(t, ws, id, name).value else t
    case DeleteTag(ws, id) => if Delete(t, ws, id).Some? then Delete(t, ws, id).value else t
    case MergeTags(ws, source, target) => if Merge(t, ws, source, target).Some? then Merge(t, ws, source, target).value else t
    case AssignTag(_, p, id) => Attach(t, p, id)
    case UnassignTag(_, p, id) => Detach(t, p, id)
  }

  /** The call goes through exactly when it is accepted. */
  ghost predicate Exact(e: P.Env, s: P.State, call: P.TagCall) {
    var s' := P.ApplyTagging(e, s, call);
    s'.docs == s.docs && s'.tags == if Accepted(e, s, call) then TablesAfter(s.tags, call) else s.tags
  }

  lemma AcceptedExactly(e: P.Env, s: P.State, call: P.TagCall)
    ensures Exact(e, s, call)
  {
    hide Exact;
    match call
    case CreateTag(ws, id, name) => CreateAccepted(e, s, ws, id, name);
    case RenameTag(ws, id, name) => RenameAccepted(e, s, ws, id, name);
    case DeleteTag(ws, id) => DeleteAccepted(e, s, ws, id);
    case MergeTags(ws, source, target) => MergeAccepted(e, s, ws, source, target);
    case AssignTag(ws, p, id) => AssignAccepted(e, s, ws, p, id);
    case UnassignTag(ws, p, id) => UnassignAccepted(e, s, ws, p, id);
  }

  lemma RetagSets(s: P.State, t: Option<Tables>, docs: set<DocId>)
    ensures P.Retag(s, t, docs).docs == s.docs && P.Retag(s, t, docs).tags == if t.Some? then t.value else s.tags
  {
    hide P.Syncs;
  }

  lemma CreateAccepted(e: P.Env, s: P.State, ws: WsId, id: TagId, name: string)
    ensures Exact(e, s, P.CreateTag(ws, id, name))
  {
    hide P.Retag, Create;
    RetagSets(s, Create(s.tags, ws, id, name), {});
    CreateExactly(s.tags, ws, id, name, OnWorkspace(ws), id);
  }

  lemma RenameAccepted(e: P.Env, s: P.State, ws: WsId, id: TagId, name: string)
    ensures Exact(e, s, P.RenameTag(ws, id, name))
  {
    hide P.Retag, Rename, P.InWorkspace;
    RetagSets(s, Rename(s.tags, ws, id, name), P.InWorkspace(e, s, ws));
    RenameExactly(s.tags, ws, id, name, OnWorkspace(ws), id);
  }

  lemma DeleteAccepted(e: P.Env, s: P.State, ws: WsId, id: TagId)
    ensures Exact(e, s, P.DeleteTag(ws, id))
  {
    hide P.Retag, Delete, P.InWorkspace;
    RetagSets(s, Delete(s.tags, ws, id), P.InWorkspace(e, s, ws));
    DeleteExactly(s.tags, ws, id, OnWorkspace(ws), id);
  }

  lemma MergeAccepted(e: P.Env, s: P.State, ws: WsId, source: TagId, target: TagId)
    ensures Exact(e, s, P.MergeTags(ws, source, target))
  {
    hide P.Retag, Merge, P.InWorkspace;
    RetagSets(s, Merge(s.tags, ws, source, target), P.InWorkspace(e, s, ws));
    MergeExactly(s.tags, ws, source, target, OnWorkspace(ws), source);
  }

  lemma AssignAccepted(e: P.Env, s: P.State, ws: WsId, p: Target, id: TagId)
    ensures Exact(e, s, P.AssignTag(ws, p, id))
  {
    hide P.Retag, P.Affected, P.TargetIn, InWs, Attach;
    RetagSets(s, Some(Attach(s.tags, p, id)), P.Affected(e, s, p));
    TargetIsIn(e, s, ws, p);
  }

  lemma UnassignAccepted(e: P.Env, s: P.State, ws: WsId, p: Target, id: TagId)
    ensures Exact(e, s, P.UnassignTag(ws, p, id))
  {
    hide P.Retag, P.Affected, P.TargetIn, InWs, Detach;
    RetagSets(s, Some(Detach(s.tags, p, id)), P.Affected(e, s, p));
    TargetIsIn(e, s, ws, p);
  }

  lemma TargetIsIn(e: P.Env, s: P.State, ws: WsId, p: Target)
    ensures P.TargetIn(e, s, ws, p) <==> InWs(e, s, ws, p)
  {
  }

  /** What is carried afterwards, target by target and tag by tag. */
  lemma CarriedAfter(e: P.Env, s: P.State, call: P.TagCall, d: DocId, n: string)
    requires d in s.docs && Scoped(s.tags, e.home, s.issued) && d in s.issued && s.issued[d] == s.docs[d].col
    requires Accepted(e, s, call)
    ensures var t', col := TablesAfter(s.tags, call), s.docs[d].col;
      (exists q, x :: Carried(t', e.home, col, d, q, x) && t'.tags[x].name == n) <==>
        Keeps(s.tags, e.home, col, d, call, n) || Adds(s.tags, e.home, col, d, call, n)
  {
    hide Create, Rename, Delete, Merge, Attach, Detach;
    var t, col := s.tags, s.docs[d].col;
    var t' := TablesAfter(t, call);
    if q, x :| Carried(t', e.home, col, d, q, x) && t'.tags[x].name == n {
      CarriedFrom(e, s, call, d, q, x, n);
    }
    if Keeps(t, e.home, col, d, call, n) {
      var q, x :| Carried(t, e.home, col, d, q, x) && NameAfter(t, call, q, x) == Some(n);
      CarriedTo(e, s, call, d, q, x, n);
    }
    if Adds(t, e.home, col, d, call, n) {
      AttachExactly(t, call.place, call.tag, call.place, call.tag);
      assert Carried(t', e.home, col, d, call.place, call.tag);
    }
  }

  lemma CarriedFrom(e: P.Env, s: P.State, call: P.TagCall, d: DocId, q: Target, x: TagId, n: string)
    requires d in s.docs && Scoped(s.tags, e.home, s.issued) && d in s.issued && s.issued[d] == s.docs[d].col
    requires Accepted(e, s, call)
    requires var t' := TablesAfter(s.tags, call); Carried(t', e.home, s.docs[d].col, d, q, x) && t'.tags[x].name == n
    ensures Keeps(s.tags, e.home, s.docs[d].col, d, call, n) || Adds(s.tags, e.home, s.docs[d].col, d, call, n)
  {
    hide Create, Rename, Delete, Merge, Attach, Detach;
    var t, col := s.tags, s.docs[d].col;
    match call
    case CreateTag(ws, id, name) =>
      CreateExactly(t, ws, id, name, q, x);
      assert x in t.tags by { AttachedExists(t, e.home, s.issued, q, x, col, d); }
      assert Carried(t, e.home, col, d, q, x);
    case RenameTag(ws, id, name) =>
      RenameExactly(t, ws, id, name, q, x);
      assert Carried(t, e.home, col, d, q, x);
    case DeleteTag(ws, id) =>
      DeleteExactly(t, ws, id, q, x);
      assert Carried(t, e.home, col, d, q, x);
    case MergeTags(ws, source, target) =>
      MergeExactly(t, ws, source, target, q, x);
      var y := if Attached(t, q, x) then x else source;
      assert Carried(t, e.home, col, d, q, y) && NameAfter(t, call, q, y) == Some(n);
    case AssignTag(_, p, id) =>
      AttachExactly(t, p, id, q, x);
      if Attached(t, q, x) { assert Carried(t, e.home, col, d, q, x); }
    case UnassignTag(_, p, id) =>
      DetachExactly(t, p, id, q, x);
      assert Carried(t, e.home, col, d, q, x);
  }

  lemma CarriedTo(e: P.Env, s: P.State, call: P.TagCall, d: DocId, q: Target, x: TagId, n: string)
    requires d in s.docs && Accepted(e, s, call)
    requires Carried(s.tags, e.home, s.docs[d].col, d, q, x) && NameAfter(s.tags, call, q, x) == Some(n)
    ensures var t' := TablesAfter(s.tags, call);
      exists q, x :: Carried(t', e.home, s.docs[d].col, d, q, x) && t'.tags[x].name == n
  {
    hide Create, Rename, Delete, Merge, Attach, Detach;
    var t, col := s.tags, s.docs[d].col;
    var t' := TablesAfter(t, call);
    var y := if call.MergeTags? && x == call.source then call.target else x;
    match call {
      case CreateTag(ws, id, name) => CreateExactly(t, ws, id, name, q, x);
      case RenameTag(ws, id, name) => RenameExactly(t, ws, id, name, q, x);
      case DeleteTag(ws, id) => DeleteExactly(t, ws, id, q, x);
      case MergeTags(ws, source, target) => MergeExactly(t, ws, source, target, q, y);
      case AssignTag(_, p, id) => AttachExactly(t, p, id, q, x);
      case UnassignTag(_, p, id) => DetachExactly(t, p, id, q, x);
    }
    assert Carried(t', e.home, col, d, q, y) && t'.tags[y].name == n;
  }

  /** An assignment a document is under is of a tag that exists. */
  lemma AttachedExists(t: Tables, home: map<ColId, WsId>, colOf: map<DocId, ColId>, q: Target, x: TagId, col: ColId, doc: DocId)
    requires Scoped(t, home, colOf) && Attached(t, q, x)
    ensures x in t.tags
  {
  }
}
