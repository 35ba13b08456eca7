/** What a turn stores and reports, and how long it stays. */
module ChatAnswers {
  import opened Wrappers
  import opened Strings
  import opened ChatModel
  import opened ChatTranscript
  import opened ChatRuns
  import opened ChatVersion
  import opened ChatLease

  // ------------------------------------------------------------------- questions

  /** A run of the request that may start over: failed, or with an expired lease, at its own version. */
  predicate MayRetry(s: Session, c: BeginCall) {
    && c.requestId in s.runs
    && var run := s.runs[c.requestId];
    run.hash == c.hash && run.status != Complete && s.version == run.userVersion
    && !(run.status == Pending && run.leaseUntil > c.first)
  }

  predicate NobodyRuns(s: Session, now: int) {
    forall r :: r in s.runs && s.runs[r].status == Pending ==> s.runs[r].leaseUntil <= now
  }

  /**
   How a Begin is answered: a completed request with its response; a request that may start over, or
   a new one at the session's version, with a turn if nobody else runs; anything else with a refusal.
   */
  lemma HowBeginAnswers(db: Db, c: BeginCall)
    ensures var o := BeginDb(db, c).1;
      && (o == Refused(NotFound) <==> !Authorized(db, c.owner, c.account, c.sessionId))
      && (Authorized(db, c.owner, c.account, c.sessionId) ==>
            var s := db.sessions[c.sessionId];
            var known := c.requestId in s.runs;
            var anew := !known && s.version == c.version && NobodyRuns(s, c.count);
            var usable := c.accepted && !c.draft.Malformed? && !c.request.Malformed?;
            && (o.Replayed? <==> known && s.runs[c.requestId].hash == c.hash && s.runs[c.requestId].status == Complete)
            && (o.Replayed? ==> o.response == s.runs[c.requestId].response)
            && (o.Started? <==> (MayRetry(s, c) && NobodyRuns(s, c.count)) || (anew && usable))
            && (o == Refused(Invalid) <==> anew && !usable))
  {
    if c.sessionId in db.sessions {
      var s := db.sessions[c.sessionId];
      assert Busy(s, c.count) <==> !NobodyRuns(s, c.count);
    }
  }

  /** Every message is where it was, with what it said. */
  ghost predicate MessagesKept(s: Session, t: Session) {
    s.messages.Keys <= t.messages.Keys && forall m :: m in s.messages ==> t.messages[m] == s.messages[m]
  }

  /** One new message at the end. */
  ghost predicate Appended(s: Session, t: Session, m: Id, p: Payload) {
    && t.messages.Keys == s.messages.Keys + {m} && t.messages[m].payload == p
    && forall x :: x in s.messages ==> t.messages[x] == s.messages[x] && s.messages[x].position < t.messages[m].position
  }

  function Lease(now: int): int { now + 660 }

  /** The first question of a session names it, by up to 32 characters. */
  predicate Titled(s: Session, t: Session, content: Text) {
    var title := Trim(content);
    t.title == if t.version != 1 || |title| == 0 then s.title else if |title| <= 32 then title else title[..32]
  }

  /** A repeated request gets a new token and a new lease of eleven minutes for its old question. */
  ghost predicate StartedOver(s: Session, t: Session, c: BeginCall, turn: Turn) {
    && c.requestId in s.runs && turn.userMessageId == s.runs[c.requestId].userMessageId
    && t == s.(business := c.business, title := t.title, runs := t.runs) && Titled(s, t, c.user.content)
    && t.runs == s.runs[c.requestId :=
         s.runs[c.requestId].(token := c.token, status := Pending, leaseUntil := Lease(c.lease))]
  }

  /** A new request appends its question, and a draft takes the place of the current card. */
  ghost predicate AskedAnew(s: Session, t: Session, c: BeginCall, turn: Turn) {
    && turn.userMessageId == c.messageId && Appended(s, t, c.messageId, c.user)
    && t.version == c.version + 1 && t.account == s.account && t.business == c.business && t.links == s.links
    && Titled(s, t, c.user.content)
    && t.runs == s.runs[c.requestId :=
         RunRow(c.hash, c.token, Pending, Lease(c.lease), c.messageId, c.version + 1, None)]
    && t.inputs == (if c.request.Json? then s.inputs[c.requestId := c.request.value] else s.inputs)
    && (if c.draft.Json? then
          t.current == None
          && t.state == Some(StateRow(if s.state.Some? then s.state.value.memory else "{}", c.draft.value))
        else t.current == s.current && t.state == s.state)
  }

  /** A turn that starts changes its session only, and stores the question it reports; a refusal changes nothing. */
  lemma QuestionIsStored(db: Db, c: BeginCall)
    requires c.sessionId in db.sessions ==> c.messageId !in db.sessions[c.sessionId].messages
    ensures var (z, o) := BeginDb(db, c);
      && (!o.Started? ==> z == db)
      && (o.Started? ==>
            && c.sessionId in db.sessions && c.sessionId in z.sessions
            && z == db.(sessions := db.sessions[c.sessionId := z.sessions[c.sessionId]])
            && var s, t := db.sessions[c.sessionId], z.sessions[c.sessionId];
            && o.turn == Turn(c.sessionId, c.requestId, c.token, o.turn.userMessageId, t.version)
            && if c.requestId in s.runs then StartedOver(s, t, c, o.turn) else AskedAnew(s, t, c, o.turn))
  {
    if c.sessionId in db.sessions {
      assert db.sessions[c.sessionId := db.sessions[c.sessionId]] == db.sessions;
    }
  }

  // --------------------------------------------------------------------- answers

  /**
   A Finish that succeeds reports what it stored: the given answer at the end of the transcript under
   the reported id, the session's new version, and the given text; a card in the answer becomes the
   snapshot and the current card. Its run is complete, and nothing else changes.
   */
  lemma AnswerIsStored(db: Db, turn: Turn, answer: Payload, accepted: bool, body: Option<Text>, now: int, m: Id)
    requires turn.sessionId in db.sessions ==> m !in db.sessions[turn.sessionId].messages
    ensures var (z, o) := FinishDb(db, turn, answer, accepted, body, now, m);
      var sid := turn.sessionId;
      && (o.FinishRefused? ==> z == db)
      && (o.Finished? ==>
            && sid in db.sessions && sid in z.sessions && z == db.(sessions := db.sessions[sid := z.sessions[sid]])
            && var s, t := db.sessions[sid], z.sessions[sid];
            && o.response.messageId == m && Appended(s, t, m, answer)
            && o.response.version == t.version == turn.version + 1 && body == Some(o.response.body)
            && t.account == s.account && t.title == s.title && t.business == s.business && t.links == s.links
            && t.inputs == s.inputs && turn.requestId in s.runs
            && t.runs == s.runs[turn.requestId :=
                 s.runs[turn.requestId].(status := Complete, response := Some(o.response))]
            && if answer.card.Some? then
                 t.current == Some(m)
                 && t.state == Some(StateRow(if s.state.Some? then s.state.value.memory else "{}", answer.card))
               else t.current == s.current && t.state == s.state)
  {
    if turn.sessionId in db.sessions {
      assert db.sessions[turn.sessionId := db.sessions[turn.sessionId]] == db.sessions;
    }
  }

  lemma NobodyRunsAfterFinish(y: System, finish: Step, t: int)
    requires SystemOk(y) && finish.Finish? && Enabled(y, finish) && LeasesOk(y, t)
    requires FinishDb(y.db, finish.turn, finish.answer, finish.accepted, finish.body, finish.now,
                      finish.messageId).1.Finished?
    ensures NobodyRuns(Apply(y, finish).db.sessions[finish.turn.sessionId], t)
  {
    var sid := finish.turn.sessionId;
    var s, z := y.db.sessions[sid], Apply(y, finish).db.sessions[sid];
    FinishKeepsLease(sid, s, y.turns, finish.turn, finish.answer, finish.accepted, finish.body, finish.now,
      finish.messageId, t);
    forall r | r in z.runs && z.runs[r].status == Pending ensures z.runs[r].leaseUntil <= t {
      assert r in s.runs && z.runs[r] == s.runs[r] && RunOk(s, s.runs[r]);
    }
  }

  /** The version a client is told is the one its next question must carry. */
  lemma NextQuestionCarriesTheVersion(y: System, finish: Step, c: BeginCall)
    requires SystemOk(y) && finish.Finish? && Enabled(y, finish) && LeasesOk(y, c.count)
    requires var (z, o) := FinishDb(y.db, finish.turn, finish.answer, finish.accepted, finish.body, finish.now,
                                    finish.messageId);
      o.Finished? && c.sessionId == finish.turn.sessionId && Authorized(z, c.owner, c.account, c.sessionId)
      && c.requestId !in z.sessions[c.sessionId].runs
    requires c.accepted && !c.draft.Malformed? && !c.request.Malformed?
    ensures var (z, o) := FinishDb(y.db, finish.turn, finish.answer, finish.accepted, finish.body, finish.now,
                                   finish.messageId);
      BeginDb(z, c).1.Started? <==> c.version == o.response.version
  {
    NobodyRunsAfterFinish(y, finish, c.count);
    HowBeginAnswers(Apply(y, finish).db, c);
  }

  // ------------------------------------------------------------------- runs

  lemma InvalidateKeepsMessages(db: Db, owner: Id, ids: set<Id>, sid: Id)
    requires sid in db.sessions
    ensures var z := Invalidate(db, owner, ids).sessions; sid in z && MessagesKept(db.sessions[sid], z[sid])
  {}

  lemma DocumentStepKeepsMessages(db: Db, step: Step, sid: Id)
    requires step.Save? || step.DeleteDocs? || step.DeleteRev?
    requires sid in db.sessions
    ensures var z := ApplyDb(db, step).sessions; sid in z && MessagesKept(db.sessions[sid], z[sid])
  {
    match step
    case Save(c) =>
      var w := SaveDocument(db, c);
      if w.1.Saved? {
        var written := LinkOnce(db.(documents := db.documents[w.1.id := w.1.document]), c.origin, w.1.id);
        InvalidateKeepsMessages(written, c.owner, {w.1.id}, sid);
      }
    case DeleteDocs(o, ids) =>
      var valid := set i | i in ids && i != "";
      var gone := set i | i in valid && i in db.documents && db.documents[i].owner == o;
      InvalidateKeepsMessages(db.(documents := db.documents - gone), o, valid, sid);
    case DeleteRev(o, id, rev) => InvalidateKeepsMessages(db.(documents := db.documents - {id}), o, {id}, sid);
  }

  lemma TurnKeepsMessages(db: Db, step: Step, sid: Id)
    requires (step.Begin? || step.Finish?) && sid in db.sessions && NewIds(step) !! db.sessions[sid].messages.Keys
    ensures var z := ApplyDb(db, step).sessions; sid in z && MessagesKept(db.sessions[sid], z[sid])
  {}

  lemma StepKeepsMessages(y: System, step: Step, sid: Id)
    requires HoldersOk(y) && Enabled(y, step) && sid in y.db.sessions && !Forgets(step, sid)
    ensures var z := ApplyDb(y.db, step).sessions; sid in z && MessagesKept(y.db.sessions[sid], z[sid])
  {
    if step.Save? || step.DeleteDocs? || step.DeleteRev? {
      DocumentStepKeepsMessages(y.db, step, sid);
    } else if step.Begin? || step.Finish? {
      assert NewIds(step) !! y.db.sessions[sid].messages.Keys;
      TurnKeepsMessages(y.db, step, sid);
    }
  }

  /** What was said stays said: no run that keeps the session changes or moves a message of it. */
  lemma {:induction false} MessagesAreImmutable(y: System, steps: seq<Step>, sid: Id)
    requires HoldersOk(y) && ValidRun(y, steps) && sid in y.db.sessions
    requires forall step :: step in steps ==> !Forgets(step, sid)
    ensures var z := RunSteps(y, steps).db.sessions; sid in z && MessagesKept(y.db.sessions[sid], z[sid])
    decreases |steps|
  {
    if steps != [] {
      assert steps[0] in steps;
      StepKeepsMessages(y, steps[0], sid);
      HoldersKept(y, steps[0]);
      MessagesAreImmutable(Apply(y, steps[0]), steps[1..], sid);
    }
  }

  /** What a Finish of the turn leaves: a complete run with this response, and the answer under its id. */
  ghost predicate Left(db: Db, sid: Id, rid: Id, hash: Text, answer: Payload, told: Response) {
    && sid in db.sessions && rid in db.sessions[sid].runs
    && db.sessions[sid].runs[rid].hash == hash && db.sessions[sid].runs[rid].status == Complete
    && db.sessions[sid].runs[rid].response == Some(told)
    && told.messageId in db.sessions[sid].messages && db.sessions[sid].messages[told.messageId].payload == answer
  }

  lemma FinishLeaves(db: Db, turn: Turn, answer: Payload, accepted: bool, body: Option<Text>, now: int, m: Id)
    requires FinishDb(db, turn, answer, accepted, body, now, m).1.Finished?
    ensures turn.sessionId in db.sessions && turn.requestId in db.sessions[turn.sessionId].runs && body.Some?
    ensures Left(FinishDb(db, turn, answer, accepted, body, now, m).0, turn.sessionId, turn.requestId,
                 db.sessions[turn.sessionId].runs[turn.requestId].hash, answer,
                 Response(m, turn.version + 1, body.value))
  {}

  /** The transcript holds the answer under the told id, and a repeated request is told the same again. */
  ghost predicate Answered(z: Db, again: BeginCall, answer: Payload, told: Option<Response>) {
    && told.Some? && Authorized(z, again.owner, again.account, again.sessionId)
    && told.value.messageId in z.sessions[again.sessionId].messages
    && z.sessions[again.sessionId].messages[told.value.messageId].payload == answer
    && BeginDb(z, again) == (z, Replayed(told))
    && ReplayTurn(z, again.owner, again.account, again.sessionId, again.requestId, again.hash) == Stored(told)
  }

  lemma LeftIsReplayed(x: System, steps: seq<Step>, again: BeginCall, answer: Payload, told: Response)
    requires HoldersOk(x) && ValidRun(x, steps)
    requires Left(x.db, again.sessionId, again.requestId, again.hash, answer, told)
    requires forall step :: step in steps ==> !Forgets(step, again.sessionId)
    requires Authorized(RunSteps(x, steps).db, again.owner, again.account, again.sessionId)
    ensures Answered(RunSteps(x, steps).db, again, answer, Some(told))
  {
    MessagesAreImmutable(x, steps, again.sessionId);
    ReplayIsStable(x, steps, again, x.db.sessions[again.sessionId].runs[again.requestId]);
  }

  /**
   From question to replay: after a Finish that succeeds, whatever runs in between short of clearing
   or deleting the session, the transcript holds the answer under the reported id, and a Begin or
   Replay of the request with its hash reports the same id, version and text again.
   */
  lemma AnswerStays(y: System, turn: Turn, answer: Payload, accepted: bool, body: Option<Text>, now: int, m: Id,
                    steps: seq<Step>, again: BeginCall)
    requires HoldersOk(y) && Enabled(y, Finish(turn, answer, accepted, body, now, m))
    requires FinishDb(y.db, turn, answer, accepted, body, now, m).1.Finished?
    requires again.sessionId == turn.sessionId && again.requestId == turn.requestId
    requires again.hash == y.db.sessions[turn.sessionId].runs[turn.requestId].hash
    requires var x := Apply(y, Finish(turn, answer, accepted, body, now, m));
      ValidRun(x, steps) && Authorized(RunSteps(x, steps).db, again.owner, again.account, again.sessionId)
    requires forall step :: step in steps ==> !Forgets(step, turn.sessionId)
    ensures var x := Apply(y, Finish(turn, answer, accepted, body, now, m));
      Answered(RunSteps(x, steps).db, again, answer, Some(Response(m, turn.version + 1, body.value)))
  {
    var finish := Finish(turn, answer, accepted, body, now, m);
    HoldersKept(y, finish);
    FinishLeaves(y.db, turn, answer, accepted, body, now, m);
    LeftIsReplayed(Apply(y, finish), steps, again, answer, Response(m, turn.version + 1, body.value));
  }

  // ------------------------------------------------------- edits by the user

  /** Business data and deletions compare the version, and wait for a running turn. */
  lemma EditIsCompareAndSwap(db: Db, owner: Id, account: Id, sid: Id, version: int, business: Text, now: int)
    ensures var (u, edited) := UpdateBusinessDb(db, owner, account, sid, version, business, now);
      var (e, cleared) := DeleteDb(db, owner, account, sid, version, true, now);
      var (d, deleted) := DeleteDb(db, owner, account, sid, version, false, now);
      && edited == cleared == deleted
      && (edited <==> Authorized(db, owner, account, sid) && db.sessions[sid].version == version
                      && NobodyRuns(db.sessions[sid], now))
      && (!edited ==> u == e == d == db)
      && (edited ==>
            var s := db.sessions[sid];
            && u == db.(sessions := db.sessions[sid := s.(business := business, version := version + 1)])
            && e == db.(sessions := db.sessions[sid := Session(s.account, version + 1, s.title, s.business,
                                                                map[], map[], map[], None, None, map[])])
            && d == db.(sessions := db.sessions - {sid}))
  {
    if sid in db.sessions { assert Busy(db.sessions[sid], now) <==> !NobodyRuns(db.sessions[sid], now); }
  }

  /**
   Once a session is past a version, or gone, everything based on that version is refused for good: an
   edit of its data, clearing, deleting, and a new question.
   */
  lemma StaleVersionIsRefused(y: System, steps: seq<Step>, sid: Id, version: int, business: Text, now: int,
                              c: BeginCall, clear: bool)
    requires y.db.sessions.Keys <= y.issued && sid in y.issued && ValidRun(y, steps)
    requires sid in y.db.sessions ==> y.db.sessions[sid].version > version
    requires c.sessionId == sid && c.version == version
    ensures var z := RunSteps(y, steps).db;
      && UpdateBusinessDb(z, c.owner, c.account, sid, version, business, now) == (z, false)
      && DeleteDb(z, c.owner, c.account, sid, version, clear, now) == (z, false)
      && (sid in z.sessions && c.requestId !in z.sessions[sid].runs ==>
            BeginDb(z, c).0 == z && BeginDb(z, c).1.Refused?)
  {
    var z := RunSteps(y, steps);
    if sid !in y.db.sessions { GoneStaysGone(y, steps, sid); }
    else if sid in z.db.sessions { VersionIsFaithful(y, steps, sid); }
    if sid in z.db.sessions {
      assert z.db.sessions[sid := z.db.sessions[sid]] == z.db.sessions;
    }
  }

  /** So of all edits of one version one is accepted at most, and no edit is lost. */
  lemma EditIsNotLost(y: System, edit: Step, steps: seq<Step>, business: Text, now: int, c: BeginCall, clear: bool)
    requires y.db.sessions.Keys <= y.issued && (edit.UpdateBusiness? || edit.Delete?)
    requires Editable(y.db, edit.owner, edit.account, edit.sid, edit.version, edit.now)
    requires ValidRun(Apply(y, edit), steps) && c.sessionId == edit.sid && c.version == edit.version
    ensures var z := RunSteps(Apply(y, edit), steps).db;
      && UpdateBusinessDb(z, c.owner, c.account, edit.sid, edit.version, business, now) == (z, false)
      && DeleteDb(z, c.owner, c.account, edit.sid, edit.version, clear, now) == (z, false)
      && (edit.sid in z.sessions && c.requestId !in z.sessions[edit.sid].runs ==>
            BeginDb(z, c).0 == z && BeginDb(z, c).1.Refused?)
  {
    SessionIds(y, edit);
    StaleVersionIsRefused(Apply(y, edit), steps, edit.sid, edit.version, business, now, c, clear);
  }

  /** Whoever is not the owner of the session's account reaches nothing. */
  lemma StrangersAreRefused(db: Db, c: BeginCall, version: int, business: Text, clear: bool, now: int)
    requires c.sessionId in db.sessions ==>
      db.sessions[c.sessionId].account != c.account || c.account !in db.owners || db.owners[c.account] != c.owner
    ensures BeginDb(db, c) == (db, Refused(NotFound))
    ensures UpdateBusinessDb(db, c.owner, c.account, c.sessionId, version, business, now) == (db, false)
    ensures DeleteDb(db, c.owner, c.account, c.sessionId, version, clear, now) == (db, false)
    ensures CancelDb(db, c.owner, c.account, c.sessionId, c.requestId) == db
    ensures ReplayTurn(db, c.owner, c.account, c.sessionId, c.requestId, c.hash) == NoReplay
  {}

  /** A cancel ends a request that is not complete and drops its stored input; it touches nothing else. */
  lemma CancelEndsTheRequest(db: Db, owner: Id, account: Id, sid: Id, rid: Id)
    ensures var z := CancelDb(db, owner, account, sid, rid);
      if Authorized(db, owner, account, sid) && rid in db.sessions[sid].runs
         && db.sessions[sid].runs[rid].status != Complete then
        var s := db.sessions[sid];
        z == db.(sessions := db.sessions[sid :=
          s.(runs := s.runs[rid := s.runs[rid].(status := Failed)], inputs := s.inputs - {rid})])
      else z == db
  {
    if sid in db.sessions { assert db.sessions[sid := db.sessions[sid]] == db.sessions; }
  }

  /** A new session is empty, at version zero, and belongs to an account of its owner. */
  lemma CreatedSession(db: Db, owner: Id, account: Id, sid: Id, title: Text)
    ensures var (z, ok) := CreateDb(db, owner, account, sid, title);
      && (ok <==> account in db.owners && db.owners[account] == owner && sid !in db.sessions)
      && (!ok ==> z == db)
      && (ok ==> Authorized(z, owner, account, sid) && z == db.(sessions := db.sessions[sid :=
           Session(account, 0, title, "{}", map[], map[], map[], Some(StateRow("{}", None)), None, map[])]))
  {}
}
