/**
 A session's version is a faithful validator of what a reader of the session
 sees, across chat operations and library edits alike.
 */
module ChatVersion {
  import opened Wrappers
  import opened ChatModel
  import opened ChatTranscript
  import opened ChatRuns

  datatype SavedView = Unlinked | Missing | Found(document: Document)
  datatype ReaderView = ReaderView(messages: map<Id, Message>, snapshot: Option<Card>, current: Option<Id>,
    saved: SavedView)

  function Snapshot(s: Session): Option<Card> {
    if s.state.Some? then s.state.value.snapshot else None
  }

  /** The library document the current card is linked to, as its account's owner sees it. */
  function SavedDocument(db: Db, s: Session): SavedView {
    if s.current.None? || s.current.value !in s.links then Unlinked
    else
      var id := s.links[s.current.value];
      if id in db.documents && s.account in db.owners && db.documents[id].owner == db.owners[s.account]
      then Found(db.documents[id]) else Missing
  }

  function View(db: Db, sid: Id): ReaderView
    requires sid in db.sessions
  {
    var s := db.sessions[sid];
    ReaderView(s.messages, Snapshot(s), s.current, SavedDocument(db, s))
  }

  /** The version never falls, and an unchanged version means an unchanged card, snapshot and transcript. */
  ghost predicate Validates(s: Session, t: Session) {
    && s.version <= t.version && s.account == t.account
    && (s.version == t.version ==>
          && t.messages == s.messages && Snapshot(t) == Snapshot(s) && t.current == s.current && t.links == s.links)
  }

  lemma BeginValidates(s: Session, c: BeginCall)
    ensures Validates(s, BeginSession(s, c).0)
  {}

  lemma FinishValidates(s: Session, turn: Turn, answer: Payload, ok: bool, body: Option<Text>, now: int, m: Id)
    ensures Validates(s, FinishSession(s, turn, answer, ok, body, now, m).0)
  {}

  lemma MemoryValidates(s: Session, turn: Turn, memory: Text, now: int)
    ensures Validates(s, SaveMemorySession(s, turn, memory, now).0)
  {}

  lemma TurnStepValidates(db: Db, step: Step, sid: Id)
    requires step.Begin? || step.Finish? || step.SaveMemory?
    requires sid in db.sessions
    ensures sid in ApplyDb(db, step).sessions && Validates(db.sessions[sid], ApplyDb(db, step).sessions[sid])
  {
    var s := db.sessions[sid];
    match step
    case Begin(c) => BeginValidates(s, c);
    case Finish(t, a, ok, b, now, m) => FinishValidates(s, t, a, ok, b, now, m);
    case SaveMemory(t, memory, now) => MemoryValidates(s, t, memory, now);
  }

  lemma UserStepValidates(db: Db, step: Step, sid: Id)
    requires step.Create? || step.Fail? || step.Cancel? || step.UpdateBusiness? || step.Delete?
    requires sid in db.sessions && sid in ApplyDb(db, step).sessions
    requires step.Create? ==> step.sid != sid
    ensures Validates(db.sessions[sid], ApplyDb(db, step).sessions[sid])
  {}

  lemma ChatStepFrame(db: Db, step: Step)
    requires !(step.Save? || step.DeleteDocs? || step.DeleteRev?)
    ensures ApplyDb(db, step).documents == db.documents && ApplyDb(db, step).owners == db.owners
  {}

  lemma ChatStepValidates(db: Db, step: Step, sid: Id)
    requires !(step.Save? || step.DeleteDocs? || step.DeleteRev?)
    requires sid in db.sessions && sid in ApplyDb(db, step).sessions
    requires step.Create? ==> step.sid != sid
    ensures Validates(db.sessions[sid], ApplyDb(db, step).sessions[sid])
    ensures ApplyDb(db, step).documents == db.documents && ApplyDb(db, step).owners == db.owners
  {
    ChatStepFrame(db, step);
    if step.Begin? || step.Finish? || step.SaveMemory? { TurnStepValidates(db, step, sid); }
    else { UserStepValidates(db, step, sid); }
  }

  lemma SaveValidates(db: Db, c: SaveCall, sid: Id)
    requires sid in db.sessions
    ensures var z := SaveDocument(db, c).0;
      && sid in z.sessions
      && db.sessions[sid].version <= z.sessions[sid].version
      && (db.sessions[sid].version == z.sessions[sid].version ==> View(z, sid) == View(db, sid))
  {
    var r := SaveDocument(db, c);
    if r.1.Saved? {
      var id := r.1.id;
      var written := LinkOnce(db.(documents := db.documents[id := r.1.document]), c.origin, id);
      var s := db.sessions[sid];
      var w := written.sessions[sid];
      assert w == s || w == s.(links := s.links[c.origin.value.messageId := id]);
      if !Reads(written, sid, c.owner, {id}) && s.current.Some? {
        assert s.current.value in s.links <==> s.current.value in w.links;
      }
    }
  }

  lemma DeletionValidates(db: Db, owner: Id, gone: set<Id>, ids: set<Id>, sid: Id)
    requires sid in db.sessions && gone <= ids
    requires forall i :: i in gone && i in db.documents ==> db.documents[i].owner == owner
    ensures var z := Invalidate(db.(documents := db.documents - gone), owner, ids);
      && sid in z.sessions
      && db.sessions[sid].version <= z.sessions[sid].version
      && (db.sessions[sid].version == z.sessions[sid].version ==> View(z, sid) == View(db, sid))
  {}

  lemma StepValidates(y: System, step: Step, sid: Id)
    requires y.db.sessions.Keys <= y.issued && Enabled(y, step)
    requires sid in y.db.sessions && sid in ApplyDb(y.db, step).sessions
    ensures var z := ApplyDb(y.db, step);
      && y.db.sessions[sid].version <= z.sessions[sid].version
      && (y.db.sessions[sid].version == z.sessions[sid].version ==> View(z, sid) == View(y.db, sid))
  {
    match step
    case Save(c) => SaveValidates(y.db, c, sid);
    case DeleteDocs(o, ids) =>
      var valid := set i | i in ids && i != "";
      DeletionValidates(y.db, o, (set i | i in valid && i in y.db.documents && y.db.documents[i].owner == o), valid,
        sid);
    case DeleteRev(o, id, rev) =>
      if DeleteRevision(y.db, o, id, rev).1 { DeletionValidates(y.db, o, {id}, {id}, sid); }
    case _ => ChatStepValidates(y.db, step, sid);
  }

  lemma {:induction false} GoneStaysGone(y: System, steps: seq<Step>, sid: Id)
    requires sid in y.issued && sid !in y.db.sessions && ValidRun(y, steps)
    ensures sid !in RunSteps(y, steps).db.sessions
    decreases |steps|
  {
    if steps != [] {
      SessionIds(y, steps[0]);
      GoneStaysGone(Apply(y, steps[0]), steps[1..], sid);
    }
  }

  /**
   Over every run: if a session has the same version before and after, a reader
   sees the same transcript, snapshot, current card and linked document.
   */
  lemma {:induction false} VersionIsFaithful(y: System, steps: seq<Step>, sid: Id)
    requires y.db.sessions.Keys <= y.issued && ValidRun(y, steps)
    requires sid in y.db.sessions && sid in RunSteps(y, steps).db.sessions
    ensures var z := RunSteps(y, steps).db;
      && y.db.sessions[sid].version <= z.sessions[sid].version
      && (y.db.sessions[sid].version == z.sessions[sid].version ==> View(z, sid) == View(y.db, sid))
    decreases |steps|
  {
    if steps != [] {
      var x := Apply(y, steps[0]);
      SessionIds(y, steps[0]);
      if sid !in x.db.sessions {
        GoneStaysGone(x, steps[1..], sid);
        assert false;
      } else {
        StepValidates(y, steps[0], sid);
        VersionIsFaithful(x, steps[1..], sid);
      }
    }
  }

  /** A turn starts at the version its session then has, and without a draft the linked document stays. */
  lemma StartedTurn(y: System, c: BeginCall)
    requires y.db.sessions.Keys <= y.issued && BeginDb(y.db, c).1.Started?
    ensures var x := Apply(y, Begin(c));
      var turn := BeginDb(y.db, c).1.turn;
      && x.db.sessions.Keys <= x.issued && c.sessionId in y.db.sessions && c.sessionId in x.db.sessions
      && turn.sessionId == c.sessionId && turn.version == x.db.sessions[c.sessionId].version
      && (c.draft.Absent? ==>
            SavedDocument(x.db, x.db.sessions[c.sessionId]) == SavedDocument(y.db, y.db.sessions[c.sessionId]))
  {
    SessionIds(y, Begin(c));
    BeginChange(y.db.sessions[c.sessionId], c);
  }

  /**
   A turn that commits proves that nothing its prompt was built from has moved:
   the view read at version v, then Begin at v, any interleaving, then a Finish
   that succeeds, all saw the same linked document.
   */
  lemma FinishProvesUnchanged(y: System, c: BeginCall, steps: seq<Step>, finish: Step)
    requires y.db.sessions.Keys <= y.issued && ValidRun(y, [Begin(c)] + steps)
    requires BeginDb(y.db, c).1.Started? && finish.Finish? && finish.turn == BeginDb(y.db, c).1.turn
    requires var z := RunSteps(Apply(y, Begin(c)), steps).db;
      FinishDb(z, finish.turn, finish.answer, finish.accepted, finish.body, finish.now, finish.messageId).1.Finished?
    ensures var x := Apply(y, Begin(c)).db;
      var z := RunSteps(Apply(y, Begin(c)), steps).db;
      && c.sessionId in y.db.sessions && c.sessionId in x.sessions && c.sessionId in z.sessions
      && View(z, c.sessionId) == View(x, c.sessionId)
      && (c.draft.Absent? ==>
            SavedDocument(z, z.sessions[c.sessionId]) == SavedDocument(y.db, y.db.sessions[c.sessionId]))
  {
    assert ([Begin(c)] + steps)[1..] == steps;
    StartedTurn(y, c);
    VersionIsFaithful(Apply(y, Begin(c)), steps, c.sessionId);
  }

  // -------------------------------------------------------- links on other cards

  /** A message as GetAIChatSession returns it: its payload and the library document its card was saved as. */
  function Rendered(s: Session): map<Id, (Message, Option<Id>)> {
    map m | m in s.messages :: (s.messages[m], if m in s.links then Some(s.links[m]) else None)
  }

  /**
   The rendered transcript is not covered by the version: saving a card that is
   not the current one adds its library id without a version change, and that is
   the only way. The condition can be read off the session before the save.
   */
  lemma LinkWithoutVersion(db: Db, c: SaveCall, sid: Id)
    requires sid in db.sessions && SaveDocument(db, c).1.Saved?
    ensures var s := db.sessions[sid];
      var t := SaveDocument(db, c).0.sessions[sid];
      var id := SaveDocument(db, c).1.id;
      (t.version == s.version && Rendered(t) != Rendered(s)) <==>
        && c.origin.Some? && c.origin.value.sessionId == sid && c.origin.value.messageId !in s.links
        && s.current != Some(c.origin.value.messageId)
        && !(s.current.Some? && s.current.value in s.links && s.links[s.current.value] == id)
  {
    var r := SaveDocument(db, c);
    var id := r.1.id;
    var s := db.sessions[sid];
    var written := LinkOnce(db.(documents := db.documents[id := r.1.document]), c.origin, id);
    var w := written.sessions[sid];
    var t := r.0.sessions[sid];
    assert t.messages == w.messages && t.links == w.links && t.account == w.account;
    if c.origin.Some? && c.origin.value.sessionId == sid && c.origin.value.messageId !in s.links {
      var m := c.origin.value.messageId;
      assert w == s.(links := s.links[m := id]);
      assert Rendered(t)[m].1 == Some(id) && Rendered(s)[m].1 == None;
    } else {
      assert w == s;
      assert Rendered(t) == Rendered(s);
    }
  }

  /** Steps other than a save with an origin keep the rendered transcript at an unchanged version. */
  lemma OtherStepsKeepRendering(y: System, step: Step, sid: Id)
    requires y.db.sessions.Keys <= y.issued && Enabled(y, step) && !(step.Save? && step.save.origin.Some?)
    requires sid in y.db.sessions && sid in ApplyDb(y.db, step).sessions
    requires y.db.sessions[sid].version == ApplyDb(y.db, step).sessions[sid].version
    ensures Rendered(ApplyDb(y.db, step).sessions[sid]) == Rendered(y.db.sessions[sid])
  {
    StepValidates(y, step, sid);
    if !(step.Save? || step.DeleteDocs? || step.DeleteRev?) {
      ChatStepValidates(y.db, step, sid);
    }
  }

  const QUESTION := Payload("user", "?", None)
  const CARD := Payload("assistant", "", Some(Card("quotation", true)))

  /** Two finished turns, each with a card; the second card is the current one. */
  function TwoCards(): Session {
    Session("A", 4, "?", "{}",
      map["p" := Message(0, QUESTION), "q" := Message(1, CARD), "r" := Message(2, QUESTION), "s" := Message(3, CARD)],
      map["1" := RunRow("h", "t", Complete, 660, "p", 1, Some(Response("q", 2, ""))),
          "2" := RunRow("h", "u", Complete, 660, "r", 3, Some(Response("s", 4, "")))],
      map[], Some(StateRow("{}", CARD.card)), Some("s"), map[])
  }

  /** A concrete save that shows the gap: the older card is saved, and the version stays. */
  lemma OldCardExample()
    ensures var db := Db(map["A" := "O"], map["S" := TwoCards()], map[]);
      var z := SaveDocument(db, SaveCall("O", "q", "<p>", Some(Origin("S", "q")), Some(0), "n"));
      && z.1.Saved? && "S" in z.0.sessions
      && z.0.sessions["S"].version == TwoCards().version
      && View(z.0, "S") == View(db, "S")
      && Rendered(z.0.sessions["S"]) != Rendered(TwoCards())
  {
    var db := Db(map["A" := "O"], map["S" := TwoCards()], map[]);
    var c := SaveCall("O", "q", "<p>", Some(Origin("S", "q")), Some(0), "n");
    assert OriginOk(db, c);
    LinkWithoutVersion(db, c, "S");
    SaveValidates(db, c, "S");
  }
}
