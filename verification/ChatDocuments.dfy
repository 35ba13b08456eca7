/** The document library: what a save or a deletion changes, and why no save is ever lost. */
module ChatDocuments {
  import opened Wrappers
  import opened ChatModel

  // ------------------------------------------------------------ what a save changes

  /** The session's card is linked to the document, and its account belongs to the owner. */
  predicate Shows(owners: map<Id, Id>, s: Session, links: map<Id, Id>, owner: Id, id: Id) {
    && s.account in owners && owners[s.account] == owner
    && s.current.Some? && s.current.value in links && links[s.current.value] == id
  }

  /** A session before and after a change of documents: readers lose their pending runs and move on by one version. */
  predicate Follows(s: Session, t: Session, links: map<Id, Id>, shown: bool) {
    && t == s.(links := links, version := t.version, runs := t.runs)
    && t.version == (if shown then s.version + 1 else s.version)
    && t.runs.Keys == s.runs.Keys
    && forall r :: r in s.runs ==>
         t.runs[r] == if shown && s.runs[r].status == Pending then s.runs[r].(status := Failed) else s.runs[r]
  }

  lemma InvalidatedSession(db: Db, owner: Id, ids: set<Id>, sid: Id)
    requires sid in db.sessions
    ensures var z := Invalidate(db, owner, ids);
      && z.documents == db.documents && z.owners == db.owners && z.sessions.Keys == db.sessions.Keys
      && Follows(db.sessions[sid], z.sessions[sid], db.sessions[sid].links, Reads(db, sid, owner, ids))
  {}

  function LinksAfter(s: Session, sid: Id, origin: Option<Origin>, id: Id): map<Id, Id> {
    if origin.Some? && origin.value.sessionId == sid && origin.value.messageId !in s.links
    then s.links[origin.value.messageId := id] else s.links
  }

  /**
   A refused save changes nothing. An accepted one writes the given content for its owner under the
   next revision of that one document: of revision n if it expected n, and only where there was none
   if it expected zero.
   */
  lemma SaveIsCompareAndSwap(db: Db, c: SaveCall)
    ensures var (z, o) := SaveDocument(db, c);
      && (o.SaveRefused? ==> z == db)
      && (o.Saved? ==>
            && o.id == (if c.id == "" then c.newId else c.id) && c.owner != ""
            && z.documents == db.documents[o.id := o.document] && z.owners == db.owners
            && o.document.owner == c.owner && o.document.content == c.content
            && (if o.id in db.documents then
                  && db.documents[o.id].owner == c.owner && o.document.revision == db.documents[o.id].revision + 1
                  && (c.expected.Some? ==> c.expected.value == db.documents[o.id].revision && c.expected.value > 0)
                else
                  o.document.revision == 1 && (c.expected.Some? ==> c.expected.value == 0)))
  {}

  /** Every save that meets its conditions is accepted. */
  lemma SaveIsAccepted(db: Db, c: SaveCall)
    ensures var id := if c.id == "" then c.newId else c.id;
      SaveDocument(db, c).1.Saved? <==>
        && c.owner != "" && (c.origin.Some? ==> CardOf(db, c.origin.value, c))
        && if id in db.documents then
             db.documents[id].owner == c.owner
             && (c.expected.None? || (c.expected.value > 0 && c.expected.value == db.documents[id].revision))
           else c.expected.None? || c.expected.value == 0
  {}

  /**
   The message a save comes from: an answer of the owner's session with a JSON card, saved under the
   message's id, and by revision once it is linked.
   */
  predicate CardOf(db: Db, o: Origin, c: SaveCall) {
    && o.sessionId in db.sessions && o.messageId in db.sessions[o.sessionId].messages
    && var s := db.sessions[o.sessionId];
    var p := s.messages[o.messageId].payload;
    && s.account in db.owners && db.owners[s.account] == c.owner
    && p.role == "assistant" && p.card.Some? && p.card.value.isObject && c.id == o.messageId
    && (o.messageId in s.links && s.links[o.messageId] != "" ==>
          s.links[o.messageId] == c.id && c.expected.Some? && c.expected.value > 0)
  }

  /** What an accepted save does to the sessions: one link, and every reader of the document follows. */
  lemma SaveReachesReaders(db: Db, c: SaveCall, sid: Id)
    requires SaveDocument(db, c).1.Saved? && sid in db.sessions
    ensures var (z, o) := SaveDocument(db, c);
      && z.sessions.Keys == db.sessions.Keys
      && var s := db.sessions[sid];
      var links := LinksAfter(s, sid, c.origin, o.id);
      Follows(s, z.sessions[sid], links, Shows(db.owners, s, links, c.owner, o.id))
  {
    var id := SaveDocument(db, c).1.id;
    var written := LinkOnce(db.(documents := db.documents[id := SaveDocument(db, c).1.document]), c.origin, id);
    InvalidatedSession(written, c.owner, {id}, sid);
  }

  predicate Listed(owner: Id, ids: seq<Id>, i: Id) { owner != "" && i != "" && i in ids }

  /** Deleting takes exactly the owner's documents of the list. */
  lemma DeletionIsExact(db: Db, owner: Id, ids: seq<Id>)
    ensures var z := DeleteDocuments(db, owner, ids);
      && z.owners == db.owners && z.sessions.Keys == db.sessions.Keys
      && forall i :: if i in db.documents && !(Listed(owner, ids, i) && db.documents[i].owner == owner)
           then i in z.documents && z.documents[i] == db.documents[i] else i !in z.documents
  {
    var valid := set i | i in ids && i != "";
    assert forall i :: Listed(owner, ids, i) ==> i in valid;
  }

  /** And the readers of every listed id follow, whether it was there or not. */
  lemma DeletionReachesReaders(db: Db, owner: Id, ids: seq<Id>, sid: Id)
    requires sid in db.sessions
    ensures var z := DeleteDocuments(db, owner, ids);
      var s := db.sessions[sid];
      sid in z.sessions && Follows(s, z.sessions[sid], s.links,
        exists i :: Listed(owner, ids, i) && Shows(db.owners, s, s.links, owner, i))
  {
    var s := db.sessions[sid];
    var valid := set i | i in ids && i != "";
    var gone := set i | i in valid && i in db.documents && db.documents[i].owner == owner;
    var left := db.(documents := db.documents - gone);
    InvalidatedSession(left, owner, valid, sid);
    if owner != "" && Reads(left, sid, owner, valid) {
      var id := s.links[s.current.value];
      assert Listed(owner, ids, id) && Shows(db.owners, s, s.links, owner, id);
    }
  }

  /** A single revision is deleted only while it is the current one. */
  lemma RevisionDeletionIsExact(db: Db, owner: Id, id: Id, revision: int, sid: Id)
    ensures var (z, ok) := DeleteRevision(db, owner, id, revision);
      && (ok <==> id in db.documents && db.documents[id].owner == owner && db.documents[id].revision == revision
                  && revision >= 1)
      && (!ok ==> z == db)
      && (ok ==> z.documents == db.documents - {id} && z.owners == db.owners && z.sessions.Keys == db.sessions.Keys
                 && (sid in db.sessions ==>
                       var s := db.sessions[sid];
                       Follows(s, z.sessions[sid], s.links, Shows(db.owners, s, s.links, owner, id))))
  {
    if sid in db.sessions { InvalidatedSession(db.(documents := db.documents - {id}), owner, {id}, sid); }
  }

  // --------------------------------------------------------------- no lost update

  predicate Removes(step: Step, id: Id) {
    (step.DeleteDocs? && id in step.ids) || (step.DeleteRev? && step.id == id)
  }

  lemma StepKeepsDocument(y: System, step: Step, id: Id)
    requires id in y.db.documents && !Removes(step, id)
    ensures var z := ApplyDb(y.db, step).documents;
      && id in z && z[id].owner == y.db.documents[id].owner && z[id].revision >= y.db.documents[id].revision
      && (z[id].revision == y.db.documents[id].revision ==> z[id] == y.db.documents[id])
  {
    match step
    case Save(c) => SaveIsCompareAndSwap(y.db, c);
    case DeleteDocs(owner, ids) => DeletionIsExact(y.db, owner, ids);
    case DeleteRev(owner, other, revision) => RevisionDeletionIsExact(y.db, owner, other, revision, "");
    case _ =>
  }

  /** Until it is deleted a document keeps its owner, its revision never falls, and it names one content. */
  lemma {:induction false} RevisionsGrow(y: System, steps: seq<Step>, id: Id)
    requires id in y.db.documents && forall s :: s in steps ==> !Removes(s, id)
    ensures var z := RunSteps(y, steps).db.documents;
      && id in z && z[id].owner == y.db.documents[id].owner && z[id].revision >= y.db.documents[id].revision
      && (z[id].revision == y.db.documents[id].revision ==> z[id] == y.db.documents[id])
    decreases |steps|
  {
    if steps != [] {
      assert steps[0] in steps;
      StepKeepsDocument(y, steps[0], id);
      RevisionsGrow(Apply(y, steps[0]), steps[1..], id);
    }
  }

  /** Once a document is at a later revision, every save and deletion based on an earlier one is refused. */
  lemma StaleIsRefused(y: System, steps: seq<Step>, id: Id, revision: int, stale: SaveCall, owner: Id)
    requires id in y.db.documents && revision < y.db.documents[id].revision
    requires forall s :: s in steps ==> !Removes(s, id)
    requires stale.expected == Some(revision) && id == (if stale.id == "" then stale.newId else stale.id)
    ensures var z := RunSteps(y, steps).db;
      && SaveDocument(z, stale).0 == z && SaveDocument(z, stale).1.SaveRefused?
      && DeleteRevision(z, owner, id, revision) == (z, false)
  {
    RevisionsGrow(y, steps, id);
    SaveIsCompareAndSwap(RunSteps(y, steps).db, stale);
  }

  /**
   No save is lost: after an accepted save, whatever runs in between short of deleting the document,
   every save and every deletion that was based on the revision it replaced is refused.
   */
  lemma SavedOverIsRefused(y: System, save: SaveCall, steps: seq<Step>, stale: SaveCall, owner: Id)
    requires SaveDocument(y.db, save).1.Saved?
    requires var id := SaveDocument(y.db, save).1.id;
      && (forall s :: s in steps ==> !Removes(s, id))
      && stale.expected == Some(if id in y.db.documents then y.db.documents[id].revision else 0)
      && id == if stale.id == "" then stale.newId else stale.id
    ensures var z := RunSteps(Apply(y, Save(save)), steps).db;
      && SaveDocument(z, stale).0 == z && SaveDocument(z, stale).1.SaveRefused?
      && DeleteRevision(z, owner, SaveDocument(y.db, save).1.id, stale.expected.value) == (z, false)
  {
    SaveIsCompareAndSwap(y.db, save);
    StaleIsRefused(Apply(y, Save(save)), steps, SaveDocument(y.db, save).1.id, stale.expected.value, stale, owner);
  }
}
