/** Which cards are linked to the library, and to what. */
module ChatLinks {
  import opened Wrappers
  import opened ChatModel
  import opened ChatTranscript
  import opened ChatRuns
  import opened ChatLease
  import opened ChatDocuments
  import opened ChatAnswers

  /** Every link belongs to an answer with a JSON card, and names the document saved under the message's own id. */
  predicate LinkOk(s: Session, m: Id) {
    && m in s.messages && m in s.links && (m != "" ==> s.links[m] == m)
    && s.messages[m].payload.role == "assistant"
    && s.messages[m].payload.card.Some? && s.messages[m].payload.card.value.isObject
  }

  ghost predicate LinksOk(s: Session) {
    forall m :: m in s.links ==> LinkOk(s, m)
  }

  lemma SaveKeepsLinks(db: Db, c: SaveCall, sid: Id)
    requires sid in db.sessions && LinksOk(db.sessions[sid])
    ensures sid in SaveDocument(db, c).0.sessions && LinksOk(SaveDocument(db, c).0.sessions[sid])
  {
    if SaveDocument(db, c).1.Saved? {
      SaveReachesReaders(db, c, sid);
      SaveIsAccepted(db, c);
    }
  }

  lemma DeletionKeepsLinks(db: Db, step: Step, sid: Id)
    requires (step.DeleteDocs? || step.DeleteRev?) && sid in db.sessions && LinksOk(db.sessions[sid])
    ensures sid in ApplyDb(db, step).sessions && LinksOk(ApplyDb(db, step).sessions[sid])
  {
    match step
    case DeleteDocs(owner, ids) => DeletionReachesReaders(db, owner, ids, sid);
    case DeleteRev(owner, id, revision) => RevisionDeletionIsExact(db, owner, id, revision, sid);
  }

  lemma ChatStepLinks(db: Db, step: Step, sid: Id)
    requires !(step.Save? || step.DeleteDocs? || step.DeleteRev?) && sid in ApplyDb(db, step).sessions
    ensures var t := ApplyDb(db, step).sessions[sid];
      t.links == map[] || (sid in db.sessions && t.links == db.sessions[sid].links && !(Forgets(step, sid)))
      || (sid in db.sessions && t == db.sessions[sid])
  {}

  lemma StepKeepsLinks(y: System, step: Step, sid: Id)
    requires HoldersOk(y) && Enabled(y, step) && sid in ApplyDb(y.db, step).sessions
    requires sid in y.db.sessions ==> LinksOk(y.db.sessions[sid])
    ensures LinksOk(ApplyDb(y.db, step).sessions[sid])
  {
    if step.Save? || step.DeleteDocs? || step.DeleteRev? {
      DocumentStepChanges(y.db, step, sid);
      if step.Save? { SaveKeepsLinks(y.db, step.save, sid); } else { DeletionKeepsLinks(y.db, step, sid); }
    } else {
      ChatStepLinks(y.db, step, sid);
      if sid in y.db.sessions && !Forgets(step, sid) { StepKeepsMessages(y, step, sid); }
    }
  }

  lemma {:induction false} LinksOverRuns(y: System, steps: seq<Step>)
    requires HoldersOk(y) && ValidRun(y, steps)
    requires forall sid :: sid in y.db.sessions ==> LinksOk(y.db.sessions[sid])
    ensures forall sid :: sid in RunSteps(y, steps).db.sessions ==> LinksOk(RunSteps(y, steps).db.sessions[sid])
    decreases |steps|
  {
    if steps != [] {
      var x := Apply(y, steps[0]);
      HoldersKept(y, steps[0]);
      forall sid | sid in x.db.sessions ensures LinksOk(x.db.sessions[sid]) {
        StepKeepsLinks(y, steps[0], sid);
      }
      LinksOverRuns(x, steps[1..]);
    }
  }

  /** From an empty store, after any run: a link is to the card's own document, and its card is still there. */
  lemma LinksNameTheirCards(y: System, steps: seq<Step>, sid: Id, m: Id)
    requires Initial(y) && ValidRun(y, steps) && sid in RunSteps(y, steps).db.sessions
    requires m in RunSteps(y, steps).db.sessions[sid].links
    ensures LinkOk(RunSteps(y, steps).db.sessions[sid], m)
  {
    LinksOverRuns(y, steps);
  }
}
