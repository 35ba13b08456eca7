/** Which change each store operation makes to each session, and what therefore holds over whole runs. */
module ChatRuns {
  import opened Wrappers
  import opened ChatModel
  import opened ChatTranscript

  /** Every running turn is one that BeginAIChatTurn handed out, and it carries the run's own version. */
  ghost predicate TurnsOk(sid: Id, s: Session, turns: set<Turn>) {
    forall t, r :: t in turns && t.sessionId == sid && r in s.runs && s.runs[r].token == t.token ==>
      t.requestId == r && t.version == s.runs[r].userVersion && t.userMessageId == s.runs[r].userMessageId
  }

  ghost predicate IdsIssued(s: Session, issued: set<Id>) {
    s.messages.Keys <= issued && forall r :: r in s.runs ==> s.runs[r].token in issued
  }

  ghost predicate HoldersOk(y: System) {
    && y.db.sessions.Keys <= y.issued
    && (forall t :: t in y.turns ==> t.token in y.issued)
    && (forall sid :: sid in y.db.sessions ==>
          TurnsOk(sid, y.db.sessions[sid], y.turns) && IdsIssued(y.db.sessions[sid], y.issued))
  }

  ghost predicate TranscriptsOk(db: Db) {
    forall sid :: sid in db.sessions ==> TranscriptOk(db.sessions[sid])
  }

  ghost predicate SystemOk(y: System) {
    HoldersOk(y) && TranscriptsOk(y.db)
  }

  /** A session change that starts no run: tokens, questions and versions of runs stay, and no run becomes pending. */
  ghost predicate SameTokens(s: Session, t: Session) {
    forall r :: r in t.runs ==>
      && r in s.runs && t.runs[r].token == s.runs[r].token
      && (t.runs[r].status.Pending? ==> s.runs[r].status.Pending?)
      && t.runs[r].userVersion == s.runs[r].userVersion && t.runs[r].userMessageId == s.runs[r].userMessageId
  }

  lemma BeginChange(s: Session, c: BeginCall)
    ensures var (t, o) := BeginSession(s, c);
      && (Quiet(s, t) || Asked(s, t, c.requestId, c.messageId))
      && (o.Started? ==>
            && o.turn.token == c.token && o.turn.requestId == c.requestId && o.turn.sessionId == c.sessionId
            && o.turn.version == t.version
            && c.requestId in t.runs && t.runs[c.requestId].token == c.token
            && t.runs[c.requestId].userVersion == t.version && t.runs[c.requestId].userMessageId == o.turn.userMessageId
            && t.runs == s.runs[c.requestId := t.runs[c.requestId]])
      && (!o.Started? ==> t == s)
      && t.messages.Keys <= s.messages.Keys + {c.messageId}
  {
    var (t, o) := BeginSession(s, c);
    if Admit(s, c).Fresh? && t != s {
      assert t.messages == s.messages[c.messageId := Message(NextPosition(s.messages), c.user)];
      assert Asked(s, t, c.requestId, c.messageId);
    }
  }

  lemma FinishChange(sid: Id, s: Session, turns: set<Turn>, turn: Turn, answer: Payload, accepted: bool,
                     body: Option<Text>, now: int, m: Id)
    requires TurnsOk(sid, s, turns) && turn in turns && turn.sessionId == sid
    ensures var (t, o) := FinishSession(s, turn, answer, accepted, body, now, m);
      && (o.Finished? ==> Replied(s, t, turn.requestId, m))
      && (!o.Finished? ==> t == s)
      && SameTokens(s, t) && t.messages.Keys <= s.messages.Keys + {m}
  {
    var (t, o) := FinishSession(s, turn, answer, accepted, body, now, m);
    if o.Finished? {
      assert t.messages == s.messages[m := Message(NextPosition(s.messages), answer)];
    }
  }

  lemma InvalidateChange(db: Db, owner: Id, ids: set<Id>, sid: Id)
    requires sid in db.sessions
    ensures Invalidate(db, owner, ids).sessions.Keys == db.sessions.Keys
    ensures Quiet(db.sessions[sid], Invalidate(db, owner, ids).sessions[sid])
    ensures SameTokens(db.sessions[sid], Invalidate(db, owner, ids).sessions[sid])
  {}

  lemma SaveChange(db: Db, c: SaveCall, sid: Id)
    requires sid in db.sessions
    ensures SaveDocument(db, c).0.sessions.Keys == db.sessions.Keys
    ensures Quiet(db.sessions[sid], SaveDocument(db, c).0.sessions[sid])
    ensures SameTokens(db.sessions[sid], SaveDocument(db, c).0.sessions[sid])
  {
    var r := SaveDocument(db, c);
    if r.1.Saved? {
      var written := LinkOnce(db.(documents := db.documents[r.1.id := r.1.document]), c.origin, r.1.id);
      InvalidateChange(written, c.owner, {r.1.id}, sid);
    }
  }

  /** What one step does to one session: nothing of note, one question, one answer, or a fresh start. */
  ghost predicate OneChange(step: Step, s: Session, t: Session) {
    || Quiet(s, t)
    || Cleared(t)
    || (step.Begin? && Asked(s, t, step.begin.requestId, step.begin.messageId))
    || (step.Finish? && Replied(s, t, step.turn.requestId, step.messageId))
  }

  lemma FailChange(s: Session, turn: Turn)
    ensures Quiet(s, FailSession(s, turn)) && SameTokens(s, FailSession(s, turn))
  {}

  lemma CancelChange(s: Session, rid: Id)
    ensures Quiet(s, CancelSession(s, rid)) && SameTokens(s, CancelSession(s, rid))
  {}

  lemma MemoryChange(s: Session, turn: Turn, memory: Text, now: int)
    ensures Quiet(s, SaveMemorySession(s, turn, memory, now).0)
    ensures SameTokens(s, SaveMemorySession(s, turn, memory, now).0)
  {}

  ghost predicate Changes(step: Step, s: Session, t: Session) {
    && OneChange(step, s, t)
    && t.messages.Keys <= s.messages.Keys + NewIds(step)
    && (!step.Begin? ==> SameTokens(s, t))
  }

  lemma DeleteDocsChange(db: Db, o: Id, ids: seq<Id>, sid: Id)
    requires sid in db.sessions
    ensures var z := DeleteDocuments(db, o, ids);
      && z.sessions.Keys == db.sessions.Keys
      && Quiet(db.sessions[sid], z.sessions[sid]) && SameTokens(db.sessions[sid], z.sessions[sid])
  {
    var valid := set i | i in ids && i != "";
    var gone := set i | i in valid && i in db.documents && db.documents[i].owner == o;
    InvalidateChange(db.(documents := db.documents - gone), o, valid, sid);
  }

  lemma DeleteRevChange(db: Db, o: Id, id: Id, rev: int, sid: Id)
    requires sid in db.sessions
    ensures var z := DeleteRevision(db, o, id, rev).0;
      && z.sessions.Keys == db.sessions.Keys
      && Quiet(db.sessions[sid], z.sessions[sid]) && SameTokens(db.sessions[sid], z.sessions[sid])
  {
    InvalidateChange(db.(documents := db.documents - {id}), o, {id}, sid);
  }

  lemma DocumentStepChanges(db: Db, step: Step, sid: Id)
    requires step.Save? || step.DeleteDocs? || step.DeleteRev?
    ensures sid in ApplyDb(db, step).sessions <==> sid in db.sessions
    ensures sid in db.sessions ==> Changes(step, db.sessions[sid], ApplyDb(db, step).sessions[sid])
  {
    if sid in db.sessions {
      match step
      case Save(c) => SaveChange(db, c, sid);
      case DeleteDocs(o, ids) => DeleteDocsChange(db, o, ids, sid);
      case DeleteRev(o, id, rev) => DeleteRevChange(db, o, id, rev, sid);
    }
  }

  lemma BeginStepChanges(db: Db, c: BeginCall, sid: Id)
    requires sid in db.sessions
    ensures sid in BeginDb(db, c).0.sessions && Changes(Begin(c), db.sessions[sid], BeginDb(db, c).0.sessions[sid])
  {
    BeginChange(db.sessions[sid], c);
  }

  lemma FinishStepChanges(db: Db, turns: set<Turn>, turn: Turn, a: Payload, ok: bool, b: Option<Text>, now: int, m: Id,
                          sid: Id)
    requires sid in db.sessions && TurnsOk(sid, db.sessions[sid], turns) && turn in turns
    ensures var z := FinishDb(db, turn, a, ok, b, now, m).0;
      sid in z.sessions && Changes(Finish(turn, a, ok, b, now, m), db.sessions[sid], z.sessions[sid])
  {
    if turn.sessionId == sid { FinishChange(sid, db.sessions[sid], turns, turn, a, ok, b, now, m); }
  }

  lemma FailStepChanges(db: Db, turn: Turn, sid: Id)
    requires sid in db.sessions
    ensures var z := FailDb(db, turn);
      sid in z.sessions && Quiet(db.sessions[sid], z.sessions[sid]) && SameTokens(db.sessions[sid], z.sessions[sid])
  {
    FailChange(db.sessions[sid], turn);
  }

  lemma MemoryStepChanges(db: Db, turn: Turn, memory: Text, now: int, sid: Id)
    requires sid in db.sessions
    ensures var z := SaveMemoryDb(db, turn, memory, now).0;
      sid in z.sessions && Quiet(db.sessions[sid], z.sessions[sid]) && SameTokens(db.sessions[sid], z.sessions[sid])
  {
    MemoryChange(db.sessions[sid], turn, memory, now);
  }

  lemma TurnStepChanges(db: Db, turns: set<Turn>, step: Step, sid: Id)
    requires sid in db.sessions && TurnsOk(sid, db.sessions[sid], turns)
    requires step.Finish? || step.Fail? || step.SaveMemory?
    requires step.turn in turns
    ensures sid in ApplyDb(db, step).sessions
    ensures Changes(step, db.sessions[sid], ApplyDb(db, step).sessions[sid])
  {
    match step
    case Finish(turn, a, ok, b, now, m) => FinishStepChanges(db, turns, turn, a, ok, b, now, m, sid);
    case Fail(turn) => FailStepChanges(db, turn, sid);
    case SaveMemory(turn, memory, now) => MemoryStepChanges(db, turn, memory, now, sid);
  }

  lemma CancelStepChanges(db: Db, o: Id, a: Id, rid: Id, target: Id, sid: Id)
    requires sid in db.sessions
    ensures var z := CancelDb(db, o, a, target, rid);
      sid in z.sessions && Quiet(db.sessions[sid], z.sessions[sid]) && SameTokens(db.sessions[sid], z.sessions[sid])
  {
    CancelChange(db.sessions[sid], rid);
  }

  lemma BusinessStepChanges(db: Db, o: Id, a: Id, target: Id, v: int, business: Text, now: int, sid: Id)
    requires sid in db.sessions
    ensures var z := UpdateBusinessDb(db, o, a, target, v, business, now).0;
      sid in z.sessions && Quiet(db.sessions[sid], z.sessions[sid]) && SameTokens(db.sessions[sid], z.sessions[sid])
  {}

  lemma DeleteStepChanges(db: Db, o: Id, a: Id, target: Id, v: int, clear: bool, now: int, sid: Id)
    requires sid in db.sessions && sid in DeleteDb(db, o, a, target, v, clear, now).0.sessions
    ensures var t := DeleteDb(db, o, a, target, v, clear, now).0.sessions[sid]; t == db.sessions[sid] || Cleared(t)
  {}

  lemma UserStepChanges(db: Db, step: Step, sid: Id)
    requires step.Create? || step.Cancel? || step.UpdateBusiness? || step.Delete?
    requires sid in ApplyDb(db, step).sessions
    ensures var t := ApplyDb(db, step).sessions[sid];
      if sid in db.sessions then Changes(step, db.sessions[sid], t) else Cleared(t)
  {
    if sid in db.sessions {
      match step
      case Create(_, _, _, _) =>
      case Cancel(o, a, target, rid) => CancelStepChanges(db, o, a, rid, target, sid);
      case UpdateBusiness(o, a, target, v, b, now) => BusinessStepChanges(db, o, a, target, v, b, now, sid);
      case Delete(o, a, target, v, clear, now) => DeleteStepChanges(db, o, a, target, v, clear, now, sid);
    }
  }

  lemma StepChanges(y: System, step: Step, sid: Id)
    requires sid in y.db.sessions ==> TurnsOk(sid, y.db.sessions[sid], y.turns)
    requires Enabled(y, step) && sid in ApplyDb(y.db, step).sessions
    ensures var t := ApplyDb(y.db, step).sessions[sid];
      if sid in y.db.sessions then Changes(step, y.db.sessions[sid], t) else Cleared(t)
  {
    if step.Save? || step.DeleteDocs? || step.DeleteRev? {
      DocumentStepChanges(y.db, step, sid);
    } else if step.Create? || step.Cancel? || step.UpdateBusiness? || step.Delete? {
      UserStepChanges(y.db, step, sid);
    } else if sid in y.db.sessions {
      if step.Begin? { BeginStepChanges(y.db, step.begin, sid); } else { TurnStepChanges(y.db, y.turns, step, sid); }
    }
  }

  // ---------------------------------------------------------------- preservation

  lemma TurnsAfterBegin(sid: Id, s: Session, c: BeginCall, turns: set<Turn>, issued: set<Id>)
    requires TurnsOk(sid, s, turns) && IdsIssued(s, issued) && (forall t :: t in turns ==> t.token in issued)
    requires c.sessionId == sid && c.token !in issued
    ensures var (t, o) := BeginSession(s, c);
      && TurnsOk(sid, t, if o.Started? then turns + {o.turn} else turns)
      && IdsIssued(t, issued + {c.messageId, c.token})
  {
    BeginChange(s, c);
    var (t, o) := BeginSession(s, c);
    if o.Started? {
      forall u, r | u in turns + {o.turn} && u.sessionId == sid && r in t.runs && t.runs[r].token == u.token
        ensures u.requestId == r && u.version == t.runs[r].userVersion && u.userMessageId == t.runs[r].userMessageId
      {
        if r != c.requestId { assert t.runs[r] == s.runs[r]; }
      }
    }
  }

  lemma TurnsElsewhere(sid: Id, s: Session, turns: set<Turn>, turn: Turn)
    requires TurnsOk(sid, s, turns) && turn.sessionId != sid
    ensures TurnsOk(sid, s, turns + {turn})
  {}

  lemma TurnsAfterOther(sid: Id, s: Session, t: Session, turns: set<Turn>, issued: set<Id>, more: set<Id>)
    requires TurnsOk(sid, s, turns) && IdsIssued(s, issued)
    requires SameTokens(s, t) && t.messages.Keys <= s.messages.Keys + more
    ensures TurnsOk(sid, t, turns) && IdsIssued(t, issued + more)
  {}

  lemma SessionIds(y: System, step: Step)
    ensures ApplyDb(y.db, step).sessions.Keys <= y.db.sessions.Keys + NewIds(step)
  {
    if step.Save? || step.DeleteDocs? || step.DeleteRev? {
      forall sid | sid in ApplyDb(y.db, step).sessions ensures sid in y.db.sessions {
        DocumentStepChanges(y.db, step, sid);
      }
    }
  }

  lemma BeginHolders(y: System, c: BeginCall, sid: Id)
    requires HoldersOk(y) && Enabled(y, Begin(c)) && sid in y.db.sessions
    ensures var (z, o) := BeginDb(y.db, c);
      && sid in z.sessions
      && TurnsOk(sid, z.sessions[sid], if o.Started? then y.turns + {o.turn} else y.turns)
      && IdsIssued(z.sessions[sid], y.issued + {c.messageId, c.token})
  {
    var (z, o) := BeginDb(y.db, c);
    var s := y.db.sessions[sid];
    if Authorized(y.db, c.owner, c.account, c.sessionId) {
      if c.sessionId == sid {
        TurnsAfterBegin(sid, s, c, y.turns, y.issued);
      } else if o.Started? {
        TurnsElsewhere(sid, s, y.turns, o.turn);
      }
    }
  }

  lemma HoldersKept(y: System, step: Step)
    requires HoldersOk(y) && Enabled(y, step)
    ensures HoldersOk(Apply(y, step))
  {
    var z := Apply(y, step);
    SessionIds(y, step);
    forall sid | sid in z.db.sessions
      ensures TurnsOk(sid, z.db.sessions[sid], z.turns) && IdsIssued(z.db.sessions[sid], z.issued)
    {
      StepChanges(y, step, sid);
      if sid in y.db.sessions {
        if step.Begin? { BeginHolders(y, step.begin, sid); }
        else { TurnsAfterOther(sid, y.db.sessions[sid], z.db.sessions[sid], y.turns, y.issued, NewIds(step)); }
      }
    }
    if step.Begin? { BeginTurnIsNew(y, step.begin); }
  }

  lemma TranscriptKept(s: Session, t: Session, step: Step)
    requires TranscriptOk(s) && Changes(step, s, t) && NewIds(step) !! s.messages.Keys
    ensures TranscriptOk(t)
  {
    if Cleared(t) { ClearedKeeps(t); }
    else if Quiet(s, t) { QuietKeeps(s, t); }
    else if step.Begin? { AppendKeeps(s, t, step.begin.requestId, step.begin.messageId); }
    else { AppendKeeps(s, t, step.turn.requestId, step.messageId); }
  }

  lemma StepKeeps(y: System, step: Step)
    requires SystemOk(y) && Enabled(y, step)
    ensures SystemOk(Apply(y, step))
  {
    HoldersKept(y, step);
    var z := ApplyDb(y.db, step);
    forall sid | sid in z.sessions ensures TranscriptOk(z.sessions[sid]) {
      StepChanges(y, step, sid);
      if sid in y.db.sessions { TranscriptKept(y.db.sessions[sid], z.sessions[sid], step); }
      else { ClearedKeeps(z.sessions[sid]); }
    }
  }

  lemma BeginTurnIsNew(y: System, c: BeginCall)
    ensures var o := BeginDb(y.db, c).1; o.Started? ==> o.turn.token == c.token && o.turn.sessionId == c.sessionId
  {}

  /** Over every run of the store: the transcript invariant holds in every session. */
  lemma {:induction false} TranscriptsOverRuns(y: System, steps: seq<Step>)
    requires SystemOk(y) && ValidRun(y, steps)
    ensures SystemOk(RunSteps(y, steps))
    decreases |steps|
  {
    if steps != [] {
      StepKeeps(y, steps[0]);
      TranscriptsOverRuns(Apply(y, steps[0]), steps[1..]);
    }
  }

  ghost predicate AnswersFollowQuestions(s: Session) {
    forall r :: r in s.runs && s.runs[r].status.Complete? ==>
      && s.runs[r].response.Some? && s.runs[r].userMessageId in s.messages
      && At(s.messages, s.runs[r].response.value.messageId, s.messages[s.runs[r].userMessageId].position + 1)
  }

  /** No two requests share a question or an answer, and no message is both. */
  ghost predicate AuthorsDistinct(s: Session) {
    && (forall r, q, m :: Asks(s, r, m) && Asks(s, q, m) ==> r == q)
    && (forall r, q, m :: Replies(s, r, m) && Replies(s, q, m) ==> r == q)
    && (forall r, q, m :: !(Asks(s, r, m) && Replies(s, q, m)))
  }

  /** What the transcript invariant says, spelled out. */
  ghost predicate Intact(s: Session) {
    && Contiguous(s.messages)
    && AnswersFollowQuestions(s)
    && (forall m :: m in s.messages ==> Accounted(s, m))
    && AuthorsDistinct(s)
  }

  lemma AnswersFollow(s: Session)
    requires RunsOk(s)
    ensures AnswersFollowQuestions(s)
  {
    forall r | r in s.runs && s.runs[r].status.Complete?
      ensures s.runs[r].response.Some? && s.runs[r].userMessageId in s.messages
      ensures At(s.messages, s.runs[r].response.value.messageId, s.messages[s.runs[r].userMessageId].position + 1)
    {
      assert RunOk(s, s.runs[r]);
    }
  }

  lemma OneReply(s: Session, r: Id, q: Id, m: Id)
    requires AnswersFollowQuestions(s) && Contiguous(s.messages) && RunsDistinct(s) && Replies(s, r, m)
    requires Replies(s, q, m)
    ensures r == q
  {
    var a, b := s.runs[r].userMessageId, s.runs[q].userMessageId;
    assert s.messages[a].position + 1 == s.messages[m].position == s.messages[b].position + 1;
    assert a == b;
  }

  lemma OneAuthorEach(s: Session)
    requires AnswersFollowQuestions(s) && Contiguous(s.messages) && RunsDistinct(s) && OneAuthor(s)
    ensures AuthorsDistinct(s)
  {
    forall r, q, m | Replies(s, r, m) && Replies(s, q, m) ensures r == q {
      OneReply(s, r, q, m);
    }
  }

  lemma InvariantMeansIntact(s: Session)
    requires TranscriptOk(s)
    ensures Intact(s)
  {
    AnswersFollow(s);
    OneAuthorEach(s);
  }

  /**
   The transcript theorem from an empty store: positions are 0..n-1; a completed
   run's answer is exactly one position after its own question; and every message
   is the question or the answer of exactly one request.
   */
  lemma TranscriptIntegrity(y: System, steps: seq<Step>)
    requires Initial(y) && ValidRun(y, steps)
    ensures forall sid :: sid in RunSteps(y, steps).db.sessions ==> Intact(RunSteps(y, steps).db.sessions[sid])
  {
    TranscriptsOverRuns(y, steps);
    var z := RunSteps(y, steps).db;
    forall sid | sid in z.sessions ensures Intact(z.sessions[sid]) {
      InvariantMeansIntact(z.sessions[sid]);
    }
  }
}
