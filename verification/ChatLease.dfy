/**
 Leases, fencing tokens and idempotent replay of chat turns. The lease facts hold
 at every real time no earlier than the clock readings used so far, whatever the
 order of those readings.
 */
module ChatLease {
  import opened Wrappers
  import opened ChatModel
  import opened ChatTranscript
  import opened ChatRuns

  /** At time t at most one run is live, and it was asked at the session's version. */
  ghost predicate LeaseOk(s: Session, t: int) {
    && (forall r :: r in s.runs && Live(s.runs[r], t) ==> s.runs[r].userVersion == s.version)
    && (forall r, q :: r in s.runs && q in s.runs && Live(s.runs[r], t) && Live(s.runs[q], t) ==> r == q)
  }

  ghost predicate LeasesOk(y: System, t: int) {
    forall sid :: sid in y.db.sessions ==> LeaseOk(y.db.sessions[sid], t)
  }

  /** The clock readings a step takes are no later than t. */
  predicate ReadBy(step: Step, t: int) {
    match step
    case Begin(c) => c.first <= t && c.count <= t && c.lease <= t
    case Finish(_, _, _, _, now, _) => now <= t
    case UpdateBusiness(_, _, _, _, _, now) => now <= t
    case Delete(_, _, _, _, _, now) => now <= t
    case SaveMemory(_, _, now) => now <= t
    case _ => true
  }

  lemma NoneLiveLater(s: Session, now: int, t: int)
    requires !Busy(s, now) && now <= t
    ensures forall r :: r in s.runs ==> !Live(s.runs[r], t)
  {}

  lemma BeginKeepsLease(s: Session, c: BeginCall, t: int)
    requires LeaseOk(s, t) && c.count <= t
    ensures LeaseOk(BeginSession(s, c).0, t)
  {
    if Admit(s, c).Retry? || Admit(s, c).Fresh? { NoneLiveLater(s, c.count, t); }
  }

  /** Two live runs at one version are one run, so committing one leaves none behind. */
  lemma FinishKeepsLease(sid: Id, s: Session, turns: set<Turn>, turn: Turn, answer: Payload, accepted: bool,
                         body: Option<Text>, now: int, m: Id, t: int)
    requires TranscriptOk(s) && TurnsOk(sid, s, turns) && turn in turns && turn.sessionId == sid
    requires LeaseOk(s, t)
    ensures LeaseOk(FinishSession(s, turn, answer, accepted, body, now, m).0, t)
  {
    var r := FinishSession(s, turn, answer, accepted, body, now, m);
    if r.1.Finished? {
      forall q | q in r.0.runs ensures !Live(r.0.runs[q], t) {
        assert q != turn.requestId ==> r.0.runs[q] == s.runs[q];
      }
    }
  }

  lemma RowKeepsLease(s: Session, turn: Turn, rid: Id, memory: Text, now: int, t: int)
    requires LeaseOk(s, t)
    ensures LeaseOk(FailSession(s, turn), t)
    ensures LeaseOk(CancelSession(s, rid), t)
    ensures LeaseOk(SaveMemorySession(s, turn, memory, now).0, t)
    ensures LeaseOk(ClearSession(s), t)
  {}

  lemma InvalidateKeepsLease(db: Db, owner: Id, ids: set<Id>, sid: Id, t: int)
    requires sid in db.sessions && LeaseOk(db.sessions[sid], t)
    ensures LeaseOk(Invalidate(db, owner, ids).sessions[sid], t)
  {}

  lemma DocumentStepKeepsLease(db: Db, step: Step, sid: Id, t: int)
    requires step.Save? || step.DeleteDocs? || step.DeleteRev?
    requires sid in db.sessions && LeaseOk(db.sessions[sid], t)
    ensures sid in ApplyDb(db, step).sessions && LeaseOk(ApplyDb(db, step).sessions[sid], t)
  {
    match step
    case Save(c) =>
      var r := SaveDocument(db, c);
      if r.1.Saved? {
        var written := LinkOnce(db.(documents := db.documents[r.1.id := r.1.document]), c.origin, r.1.id);
        InvalidateKeepsLease(written, c.owner, {r.1.id}, sid, t);
      }
    case DeleteDocs(o, ids) =>
      var valid := set i | i in ids && i != "";
      var gone := set i | i in valid && i in db.documents && db.documents[i].owner == o;
      InvalidateKeepsLease(db.(documents := db.documents - gone), o, valid, sid, t);
    case DeleteRev(o, id, rev) => InvalidateKeepsLease(db.(documents := db.documents - {id}), o, {id}, sid, t);
  }

  lemma FinishStepKeepsLease(db: Db, turns: set<Turn>, turn: Turn, a: Payload, ok: bool, b: Option<Text>, now: int,
                             m: Id, sid: Id, t: int)
    requires sid in db.sessions && TranscriptOk(db.sessions[sid]) && TurnsOk(sid, db.sessions[sid], turns)
    requires turn in turns
    requires LeaseOk(db.sessions[sid], t)
    ensures var z := FinishDb(db, turn, a, ok, b, now, m).0; sid in z.sessions && LeaseOk(z.sessions[sid], t)
  {
    if turn.sessionId == sid { FinishKeepsLease(sid, db.sessions[sid], turns, turn, a, ok, b, now, m, t); }
  }

  lemma OtherTurnStepKeepsLease(db: Db, step: Step, sid: Id, t: int)
    requires sid in db.sessions && ReadBy(step, t) && LeaseOk(db.sessions[sid], t)
    requires step.Begin? || step.Fail? || step.SaveMemory?
    ensures sid in ApplyDb(db, step).sessions && LeaseOk(ApplyDb(db, step).sessions[sid], t)
  {
    var s := db.sessions[sid];
    match step
    case Begin(c) => BeginKeepsLease(s, c, t);
    case Fail(turn) => RowKeepsLease(s, turn, "", "", 0, t);
    case SaveMemory(turn, memory, now) => RowKeepsLease(s, turn, "", memory, now, t);
  }

  lemma UserStepKeepsLease(db: Db, step: Step, sid: Id, t: int)
    requires step.Create? || step.Cancel? || step.UpdateBusiness? || step.Delete?
    requires ReadBy(step, t) && sid in ApplyDb(db, step).sessions
    requires sid in db.sessions ==> LeaseOk(db.sessions[sid], t)
    ensures LeaseOk(ApplyDb(db, step).sessions[sid], t)
  {
    if sid in db.sessions {
      var s := db.sessions[sid];
      match step
      case Cancel(_, _, _, rid) => RowKeepsLease(s, Turn("", "", "", "", 0), rid, "", 0, t);
      case UpdateBusiness(_, _, _, _, _, now) => if !Busy(s, now) { NoneLiveLater(s, now, t); }
      case _ =>
    }
  }

  lemma StepKeepsLease(y: System, step: Step, sid: Id, t: int)
    requires SystemOk(y) && Enabled(y, step) && ReadBy(step, t)
    requires sid in ApplyDb(y.db, step).sessions
    requires sid in y.db.sessions ==> LeaseOk(y.db.sessions[sid], t)
    ensures LeaseOk(ApplyDb(y.db, step).sessions[sid], t)
  {
    if step.Create? || step.Cancel? || step.UpdateBusiness? || step.Delete? {
      UserStepKeepsLease(y.db, step, sid, t);
    } else if sid in y.db.sessions {
      if step.Save? || step.DeleteDocs? || step.DeleteRev? {
        DocumentStepKeepsLease(y.db, step, sid, t);
      } else {
          if step.Finish? {
          FinishStepKeepsLease(y.db, y.turns, step.turn, step.answer, step.accepted, step.body, step.now,
            step.messageId, sid, t);
        } else {
          OtherTurnStepKeepsLease(y.db, step, sid, t);
        }
      }
    } else {
      StepChanges(y, step, sid);
    }
  }

  /**
   Over every run whose readings are no later than t: at t each session has at most one live
   run, at its head version.
   */
  lemma {:induction false} LeasesOverRuns(y: System, steps: seq<Step>, t: int)
    requires SystemOk(y) && ValidRun(y, steps) && LeasesOk(y, t)
    requires forall step :: step in steps ==> ReadBy(step, t)
    ensures LeasesOk(RunSteps(y, steps), t)
    decreases |steps|
  {
    if steps != [] {
      var x := Apply(y, steps[0]);
      StepKeeps(y, steps[0]);
      forall sid | sid in x.db.sessions ensures LeaseOk(x.db.sessions[sid], t) {
        StepKeepsLease(y, steps[0], sid, t);
      }
      LeasesOverRuns(x, steps[1..], t);
    }
  }

  /** A Finish that passes the token, status and lease test never fails the version test that follows it. */
  lemma LiveTurnIsAtHead(y: System, turn: Turn, now: int)
    requires SystemOk(y) && LeasesOk(y, now) && turn in y.turns && turn.sessionId in y.db.sessions
    requires Holds(y.db.sessions[turn.sessionId], turn, now)
    ensures y.db.sessions[turn.sessionId].version == turn.version
  {
    assert LeaseOk(y.db.sessions[turn.sessionId], now);
  }

  /**
   From an empty store, with no reading later than the Finish: the Finish of a
   turn succeeds exactly when the turn still holds its lease and the answer itself is usable.
   */
  lemma FinishSucceedsExactlyWithLease(y: System, steps: seq<Step>, finish: Step)
    requires Initial(y) && finish.Finish? && ValidRun(y, steps) && Enabled(RunSteps(y, steps), finish)
    requires forall step :: step in steps ==> ReadBy(step, finish.now)
    ensures var z := RunSteps(y, steps).db;
      FinishDb(z, finish.turn, finish.answer, finish.accepted, finish.body, finish.now,
        finish.messageId).1.Finished? <==>
        && finish.turn.sessionId in z.sessions && Holds(z.sessions[finish.turn.sessionId], finish.turn, finish.now)
        && finish.accepted && finish.body.Some?
  {
    TranscriptsOverRuns(y, steps);
    LeasesOverRuns(y, steps, finish.now);
    var z := RunSteps(y, steps);
    if finish.turn.sessionId in z.db.sessions && Holds(z.db.sessions[finish.turn.sessionId], finish.turn, finish.now) {
      LiveTurnIsAtHead(z, finish.turn, finish.now);
    }
  }

  /**
   From an empty store, with no reading later than the save: memory is stored exactly
   when the turn still holds its lease, and then it is all that changes in the session.
   */
  lemma MemoryIsSavedExactlyWithLease(y: System, steps: seq<Step>, save: Step)
    requires Initial(y) && save.SaveMemory? && ValidRun(y, steps) && Enabled(RunSteps(y, steps), save)
    requires forall step :: step in steps ==> ReadBy(step, save.now)
    ensures var z := RunSteps(y, steps).db;
      var r := SaveMemoryDb(z, save.turn, save.memory, save.now);
      var sid := save.turn.sessionId;
      && (r.1 <==> sid in z.sessions && Holds(z.sessions[sid], save.turn, save.now))
      && (r.1 ==> r.0.sessions[sid].state == Some(StateRow(save.memory,
           if z.sessions[sid].state.Some? then z.sessions[sid].state.value.snapshot else None)))
      && (r.1 ==> r.0 == Put(z, sid, z.sessions[sid].(state := r.0.sessions[sid].state)))
      && (!r.1 ==> r.0 == z)
  {
    TranscriptsOverRuns(y, steps);
    LeasesOverRuns(y, steps, save.now);
    var z := RunSteps(y, steps);
    var sid := save.turn.sessionId;
    if sid in z.db.sessions {
      assert z.db.sessions[sid := z.db.sessions[sid]] == z.db.sessions;
      if Holds(z.db.sessions[sid], save.turn, save.now) { LiveTurnIsAtHead(z, save.turn, save.now); }
    }
  }

  lemma FailedRunIsAdmitted(s: Session, turn: Turn, c: BeginCall, t: int)
    requires LeaseOk(s, t) && Holds(s, turn, t) && t <= c.count
    requires c.requestId == turn.requestId && c.hash == s.runs[turn.requestId].hash
    ensures Live(s.runs[turn.requestId], c.first) ==> Admit(s, c).Deny?
    ensures Admit(FailSession(s, turn), c).Retry?
  {
    var f := FailSession(s, turn);
    forall r | r in f.runs ensures !Live(f.runs[r], c.count) {
      if r != turn.requestId { assert f.runs[r] == s.runs[r]; }
    }
  }

  /**
   Failing a turn frees its request at once: while the lease runs a Begin of the request is
   refused, and after the failure it starts again at the same version with the same question.
   */
  lemma FailedTurnCanBeRetried(y: System, turn: Turn, c: BeginCall, t: int)
    requires LeasesOk(y, t) && turn.sessionId in y.db.sessions && Holds(y.db.sessions[turn.sessionId], turn, t)
    requires c.sessionId == turn.sessionId && c.requestId == turn.requestId
    requires Authorized(y.db, c.owner, c.account, c.sessionId)
    requires c.hash == y.db.sessions[turn.sessionId].runs[turn.requestId].hash && t <= c.count
    ensures var s := y.db.sessions[turn.sessionId];
      var again := BeginDb(FailDb(y.db, turn), c);
      && (Live(s.runs[turn.requestId], c.first) ==> BeginDb(y.db, c).1 == Refused(Conflict))
      && again.1 == Started(Turn(c.sessionId, c.requestId, c.token, s.runs[turn.requestId].userMessageId, s.version))
      && again.0.sessions[c.sessionId].messages == s.messages
  {
    FailedRunIsAdmitted(y.db.sessions[turn.sessionId], turn, c, t);
  }

  // ----------------------------------------------------------- idempotent replay

  ghost predicate Completed(db: Db, sid: Id, r: Id, run: RunRow) {
    sid in db.sessions && r in db.sessions[sid].runs && db.sessions[sid].runs[r] == run && run.status.Complete?
  }

  /** Only clearing or deleting the session touches a completed run. */
  predicate Forgets(step: Step, sid: Id) {
    step.Delete? && step.sid == sid
  }

  lemma InvalidateKeepsRow(db: Db, owner: Id, ids: set<Id>, sid: Id, r: Id, run: RunRow)
    requires Completed(db, sid, r, run)
    ensures Completed(Invalidate(db, owner, ids), sid, r, run)
  {}

  lemma DocumentStepKeepsRow(db: Db, step: Step, sid: Id, r: Id, run: RunRow)
    requires step.Save? || step.DeleteDocs? || step.DeleteRev?
    requires Completed(db, sid, r, run)
    ensures Completed(ApplyDb(db, step), sid, r, run)
  {
    match step
    case Save(c) =>
      var w := SaveDocument(db, c);
      if w.1.Saved? {
        var written := LinkOnce(db.(documents := db.documents[w.1.id := w.1.document]), c.origin, w.1.id);
        InvalidateKeepsRow(written, c.owner, {w.1.id}, sid, r, run);
      }
    case DeleteDocs(o, ids) =>
      var valid := set i | i in ids && i != "";
      var gone := set i | i in valid && i in db.documents && db.documents[i].owner == o;
      InvalidateKeepsRow(db.(documents := db.documents - gone), o, valid, sid, r, run);
    case DeleteRev(o, id, rev) => InvalidateKeepsRow(db.(documents := db.documents - {id}), o, {id}, sid, r, run);
  }

  lemma ChatStepKeepsRow(db: Db, step: Step, sid: Id, r: Id)
    requires !(step.Save? || step.DeleteDocs? || step.DeleteRev?) && !Forgets(step, sid)
    requires !(step.Create? && step.sid == sid)
    requires sid in db.sessions && r in db.sessions[sid].runs && db.sessions[sid].runs[r].status.Complete?
    ensures Completed(ApplyDb(db, step), sid, r, db.sessions[sid].runs[r])
  {}

  lemma StepKeepsCompleted(y: System, step: Step, sid: Id, r: Id, run: RunRow)
    requires Completed(y.db, sid, r, run) && !Forgets(step, sid)
    requires y.db.sessions.Keys <= y.issued && Enabled(y, step)
    ensures Completed(ApplyDb(y.db, step), sid, r, run)
  {
    if step.Save? || step.DeleteDocs? || step.DeleteRev? { DocumentStepKeepsRow(y.db, step, sid, r, run); }
    else { ChatStepKeepsRow(y.db, step, sid, r); }
  }

  lemma {:induction false} CompleteIsAbsorbing(y: System, steps: seq<Step>, sid: Id, r: Id, run: RunRow)
    requires Completed(y.db, sid, r, run) && ValidRun(y, steps) && y.db.sessions.Keys <= y.issued
    requires forall step :: step in steps ==> !Forgets(step, sid)
    ensures Completed(RunSteps(y, steps).db, sid, r, run)
    decreases |steps|
  {
    if steps != [] {
      StepKeepsCompleted(y, steps[0], sid, r, run);
      SessionIds(y, steps[0]);
      CompleteIsAbsorbing(Apply(y, steps[0]), steps[1..], sid, r, run);
    }
  }

  /** ReplayAIChatTurn: a read that answers a repeated request from the stored response. */
  datatype ReplayOutcome = NoReplay | Stored(response: Option<Response>) | ReplayConflict

  function ReplayTurn(db: Db, owner: Id, account: Id, sid: Id, r: Id, hash: Text): ReplayOutcome {
    if !Authorized(db, owner, account, sid) || r !in db.sessions[sid].runs then NoReplay
    else
      var run := db.sessions[sid].runs[r];
      if run.hash != hash then ReplayConflict
      else if run.status.Complete? then Stored(run.response) else NoReplay
  }

  /**
   After a run completes, until its session is cleared or deleted: Begin and
   Replay with the same hash return the stored response, whatever version and
   clock readings the caller brings, and with another hash they both refuse.
   */
  lemma ReplayIsStable(y: System, steps: seq<Step>, c: BeginCall, run: RunRow)
    requires Completed(y.db, c.sessionId, c.requestId, run) && ValidRun(y, steps) && y.db.sessions.Keys <= y.issued
    requires forall step :: step in steps ==> !Forgets(step, c.sessionId)
    requires Authorized(RunSteps(y, steps).db, c.owner, c.account, c.sessionId)
    ensures var z := RunSteps(y, steps).db;
      var begin := BeginDb(z, c);
      var replay := ReplayTurn(z, c.owner, c.account, c.sessionId, c.requestId, c.hash);
      && begin.0 == z
      && (c.hash == run.hash ==> begin.1 == Replayed(run.response) && replay == Stored(run.response))
      && (c.hash != run.hash ==> begin.1 == Refused(Conflict) && replay == ReplayConflict)
  {
    CompleteIsAbsorbing(y, steps, c.sessionId, c.requestId, run);
    var z := RunSteps(y, steps).db;
    assert z.sessions[c.sessionId := z.sessions[c.sessionId]] == z.sessions;
  }

  // ------------------------------------------------------------------- fencing

  ghost predicate TokenDead(s: Session, token: Id) {
    forall r :: r in s.runs && s.runs[r].token == token ==> !s.runs[r].status.Pending?
  }

  /** The turn's token runs nowhere in its session. */
  ghost predicate Fenced(y: System, turn: Turn) {
    && turn.token in y.issued && turn.sessionId in y.issued
    && (turn.sessionId in y.db.sessions ==> TokenDead(y.db.sessions[turn.sessionId], turn.token))
  }

  lemma ChangeKeepsFence(s: Session, t: Session, step: Step, token: Id)
    requires TokenDead(s, token) && Changes(step, s, t) && !step.Begin?
    ensures TokenDead(t, token)
  {}

  lemma BeginKeepsFence(s: Session, c: BeginCall, token: Id)
    requires TokenDead(s, token) && c.token != token
    ensures TokenDead(BeginSession(s, c).0, token)
  {
    BeginChange(s, c);
  }

  lemma StepKeepsFence(y: System, step: Step, turn: Turn)
    requires HoldersOk(y) && Enabled(y, step) && Fenced(y, turn)
    ensures Fenced(Apply(y, step), turn)
  {
    var sid := turn.sessionId;
    SessionIds(y, step);
    if sid in ApplyDb(y.db, step).sessions {
      StepChanges(y, step, sid);
      if sid in y.db.sessions {
        if step.Begin? { BeginKeepsFence(y.db.sessions[sid], step.begin, turn.token); }
        else { ChangeKeepsFence(y.db.sessions[sid], ApplyDb(y.db, step).sessions[sid], step, turn.token); }
      }
    }
  }

  /** Once a turn is overtaken it stays overtaken, and none of its writes has any effect. */
  lemma {:induction false} FencedForever(y: System, steps: seq<Step>, turn: Turn)
    requires HoldersOk(y) && ValidRun(y, steps) && Fenced(y, turn)
    ensures var z := RunSteps(y, steps);
      && Fenced(z, turn)
      && (forall a, ok, b, now, m :: ApplyDb(z.db, Finish(turn, a, ok, b, now, m)) == z.db)
      && (forall memory, now :: ApplyDb(z.db, SaveMemory(turn, memory, now)) == z.db)
      && ApplyDb(z.db, Fail(turn)) == z.db
    decreases |steps|
  {
    if steps == [] {
      assert turn.sessionId in y.db.sessions ==> Put(y.db, turn.sessionId, y.db.sessions[turn.sessionId]) == y.db;
    } else {
      HoldersKept(y, steps[0]);
      StepKeepsFence(y, steps[0], turn);
      FencedForever(Apply(y, steps[0]), steps[1..], turn);
    }
  }

  /** A newer Begin of the same request, a cancel, and a save of the linked document each fence the turn. */
  lemma NewerBeginFences(y: System, c: BeginCall, turn: Turn)
    requires HoldersOk(y) && Enabled(y, Begin(c)) && turn in y.turns && BeginDb(y.db, c).1.Started?
    requires turn.sessionId == c.sessionId && turn.requestId == c.requestId
    ensures Fenced(Apply(y, Begin(c)), turn)
  {
    BeginChange(y.db.sessions[c.sessionId], c);
  }

  lemma FailFences(y: System, turn: Turn)
    requires HoldersOk(y) && turn in y.turns && turn.sessionId in y.db.sessions
    ensures Fenced(Apply(y, Fail(turn)), turn)
  {
    FailKills(y.db.sessions[turn.sessionId], turn);
  }

  lemma FailKills(s: Session, turn: Turn)
    requires forall r :: r in s.runs && s.runs[r].token == turn.token ==> r == turn.requestId
    ensures TokenDead(FailSession(s, turn), turn.token)
  {}

  lemma CancelFences(y: System, owner: Id, account: Id, turn: Turn)
    requires HoldersOk(y) && turn in y.turns && Authorized(y.db, owner, account, turn.sessionId)
    ensures Fenced(Apply(y, Cancel(owner, account, turn.sessionId, turn.requestId)), turn)
  {
    CancelKills(y.db.sessions[turn.sessionId], turn);
  }

  lemma CancelKills(s: Session, turn: Turn)
    requires forall r :: r in s.runs && s.runs[r].token == turn.token ==> r == turn.requestId
    ensures TokenDead(CancelSession(s, turn.requestId), turn.token)
  {}

  lemma SavingLinkedDocumentFences(y: System, c: SaveCall, turn: Turn)
    requires HoldersOk(y) && turn in y.turns && turn.sessionId in y.db.sessions && SaveDocument(y.db, c).1.Saved?
    requires Reads(y.db, turn.sessionId, c.owner, {SaveDocument(y.db, c).1.id})
    ensures Fenced(Apply(y, Save(c)), turn)
  {
    SavingKills(y.db, c, turn.sessionId, turn.token);
  }

  lemma SavingKills(db: Db, c: SaveCall, sid: Id, token: Id)
    requires sid in db.sessions && SaveDocument(db, c).1.Saved? && Reads(db, sid, c.owner, {SaveDocument(db, c).1.id})
    ensures sid in SaveDocument(db, c).0.sessions && TokenDead(SaveDocument(db, c).0.sessions[sid], token)
  {
    var r := SaveDocument(db, c);
    var written := LinkOnce(db.(documents := db.documents[r.1.id := r.1.document]), c.origin, r.1.id);
    assert Reads(written, sid, c.owner, {r.1.id});
  }
}
