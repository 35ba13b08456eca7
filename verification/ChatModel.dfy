/**
 The chat tables as values, and every store operation as a function from one
 database value to the next. Rows that carry a session id are grouped under
 that session; documents are keyed by their own id.
 */
module ChatModel {
  import opened Wrappers
  import opened Strings

  type Id = string
  type Text = string

  const LEASE_SECONDS := 660
  const TITLE_RUNES := 32

  datatype Error = NotFound | Conflict | Invalid

  /** A generated document inside a message. Only JSON objects can be saved to the library. */
  datatype Card = Card(text: Text, isObject: bool)
  datatype Payload = Payload(role: Text, content: Text, card: Option<Card>)
  datatype Message = Message(position: int, payload: Payload)

  datatype Status = Pending | Complete | Failed
  /** What the response callback is told, plus the text it builds from that. */
  datatype Response = Response(messageId: Id, version: int, body: Text)
  datatype RunRow = RunRow(hash: Text, token: Id, status: Status, leaseUntil: int,
                           userMessageId: Id, userVersion: int, response: Option<Response>)
  datatype StateRow = StateRow(memory: Text, snapshot: Option<Card>)

  datatype Session = Session(
    account: Id, version: int, title: Text, business: Text,
    messages: map<Id, Message>,     // ai_chat_messages
    runs: map<Id, RunRow>,          // ai_chat_runs, by request id
    inputs: map<Id, Text>,          // ai_chat_run_inputs, by request id
    state: Option<StateRow>,        // ai_chat_session_state
    current: Option<Id>,            // ai_chat_current_documents
    links: map<Id, Id>)             // ai_chat_document_links, message id to document id

  datatype Document = Document(owner: Id, content: Text, revision: int)

  datatype Db = Db(owners: map<Id, Id>, sessions: map<Id, Session>, documents: map<Id, Document>)

  datatype Turn = Turn(sessionId: Id, requestId: Id, token: Id, userMessageId: Id, version: int)

  predicate Authorized(db: Db, owner: Id, account: Id, sid: Id) {
    && sid in db.sessions && db.sessions[sid].account == account
    && account in db.owners && db.owners[account] == owner
  }

  predicate Live(run: RunRow, now: int) {
    run.status.Pending? && run.leaseUntil > now
  }

  predicate Busy(s: Session, now: int) {
    exists r :: r in s.runs && Live(s.runs[r], now)
  }

  predicate IsNextPosition(messages: map<Id, Message>, n: int) {
    if messages == map[] then n == 0 else
    && (forall m :: m in messages ==> messages[m].position < n)
    && (exists m :: m in messages && messages[m].position == n - 1)
  }

  /** MAX(position) + 1, or zero for an empty transcript. */
  ghost function NextPosition(messages: map<Id, Message>): (n: int)
    ensures IsNextPosition(messages, n)
  {
    NextPositionExists(messages);
    var n :| IsNextPosition(messages, n);
    n
  }

  lemma {:induction false} NextPositionExists(messages: map<Id, Message>)
    ensures exists n :: IsNextPosition(messages, n)
    decreases |messages|
  {
    if messages == map[] {
      assert IsNextPosition(messages, 0);
    } else {
      var m :| m in messages;
      var rest := messages - {m};
      assert rest.Keys == messages.Keys - {m};
      NextPositionExists(rest);
      var k :| IsNextPosition(rest, k);
      var p := messages[m].position + 1;
      var n := if rest == map[] || k < p then p else k;
      if n != p {
        var w :| w in rest && rest[w].position == k - 1;
        assert w in messages;
      }
      assert forall x :: x in messages ==> x == m || x in rest;
      assert IsNextPosition(messages, n);
    }
  }

  /** The first question names the session; later turns keep the name. */
  function Retitle(old_: Text, version: int, content: Text): Text {
    var t := Trim(content);
    var title := if |t| > TITLE_RUNES then t[..TITLE_RUNES] else t;
    if version == 1 && title != "" then title else old_
  }

  function Insert(s: Session, id: Id, position: int, payload: Payload): Session {
    s.(messages := s.messages[id := Message(position, payload)])
  }

  function WithSnapshot(state: Option<StateRow>, card: Option<Card>): Option<StateRow> {
    Some(StateRow(if state.Some? then state.value.memory else "{}", card))
  }

  /** Everything a caller of BeginAIChatTurn supplies, with its three clock readings and two new ids. */
  datatype BeginCall = BeginCall(
    owner: Id, account: Id, sessionId: Id, requestId: Id, hash: Text, version: int,
    user: Payload, accepted: bool,   // accepted: it parses and every attachment is available
    business: Text, draft: Raw<Option<Card>>, request: Raw<Text>,
    first: int, count: int, lease: int, messageId: Id, token: Id)

  datatype BeginOutcome = Started(turn: Turn) | Replayed(response: Option<Response>) | Refused(error: Error)

  datatype Admission = Retry | Fresh | Replay | Deny

  function Admit(s: Session, c: BeginCall): Admission {
    if c.requestId in s.runs && s.runs[c.requestId].hash != c.hash then Deny
    else if c.requestId in s.runs && s.runs[c.requestId].status.Complete? then Replay
    else if c.requestId in s.runs && Live(s.runs[c.requestId], c.first) then Deny
    else if s.version != (if c.requestId in s.runs then s.runs[c.requestId].userVersion else c.version) then Deny
    else if Busy(s, c.count) then Deny
    else if c.requestId in s.runs then Retry
    else Fresh
  }

  ghost function BeginSession(s: Session, c: BeginCall): (Session, BeginOutcome) {
    match Admit(s, c)
    case Deny => (s, Refused(Conflict))
    case Replay => (s, Replayed(s.runs[c.requestId].response))
    case Retry =>
      var run := s.runs[c.requestId];
      (s.(business := c.business,
          title := Retitle(s.title, s.version, c.user.content),
          runs := s.runs[c.requestId :=
            run.(token := c.token, status := Pending, leaseUntil := c.lease + LEASE_SECONDS)]),
       Started(Turn(c.sessionId, c.requestId, c.token, run.userMessageId, s.version)))
    case Fresh =>
      if !c.accepted || c.draft.Malformed? || c.request.Malformed? then (s, Refused(Invalid))
      else
        var v := s.version + 1;
        (s.(version := v, business := c.business,
            title := Retitle(s.title, v, c.user.content),
            messages := s.messages[c.messageId := Message(NextPosition(s.messages), c.user)],
            state := if c.draft.Json? then WithSnapshot(s.state, c.draft.value) else s.state,
            current := if c.draft.Json? then None else s.current,
            runs := s.runs[c.requestId :=
              RunRow(c.hash, c.token, Pending, c.lease + LEASE_SECONDS, c.messageId, v, None)],
            inputs := if c.request.Json? then s.inputs[c.requestId := c.request.value] else s.inputs),
         Started(Turn(c.sessionId, c.requestId, c.token, c.messageId, v)))
  }

  datatype FinishOutcome = Finished(response: Response) | FinishRefused(error: Error)

  /** The token, status and lease test that guards every write of a running turn. */
  predicate Holds(s: Session, turn: Turn, now: int) {
    && turn.requestId in s.runs
    && s.runs[turn.requestId].token == turn.token
    && Live(s.runs[turn.requestId], now)
  }

  ghost function FinishSession(s: Session, turn: Turn, answer: Payload, accepted: bool,
                               body: Option<Text>, now: int, messageId: Id): (Session, FinishOutcome)
  {
    if !Holds(s, turn, now) || s.version != turn.version then (s, FinishRefused(Conflict))
    else if !accepted || body.None? then (s, FinishRefused(Invalid))
    else
      var response := Response(messageId, s.version + 1, body.value);
      (s.(version := s.version + 1,
          messages := s.messages[messageId := Message(NextPosition(s.messages), answer)],
          state := if answer.card.Some? then WithSnapshot(s.state, answer.card) else s.state,
          current := if answer.card.Some? then Some(messageId) else s.current,
          runs := s.runs[turn.requestId := s.runs[turn.requestId].(status := Complete, response := Some(response))]),
       Finished(response))
  }

  function FailSession(s: Session, turn: Turn): Session {
    if turn.requestId in s.runs && s.runs[turn.requestId].token == turn.token && s.runs[turn.requestId].status.Pending?
    then s.(runs := s.runs[turn.requestId := s.runs[turn.requestId].(status := Failed)])
    else s
  }

  function CancelSession(s: Session, rid: Id): Session {
    if rid !in s.runs || s.runs[rid].status.Complete? then s
    else s.(runs := s.runs[rid := s.runs[rid].(status := Failed)], inputs := s.inputs - {rid})
  }

  function SaveMemorySession(s: Session, turn: Turn, memory: Text, now: int): (Session, bool) {
    if Holds(s, turn, now) && s.version == turn.version
    then (s.(state := Some(StateRow(memory, if s.state.Some? then s.state.value.snapshot else None))), true)
    else (s, false)
  }

  /** Clearing keeps the session row and drops its messages, runs, inputs, state, card and links. */
  function ClearSession(s: Session): Session {
    s.(version := s.version + 1, messages := map[], runs := map[], inputs := map[],
       state := None, current := None, links := map[])
  }

  // ---------------------------------------------------------------- documents

  datatype Origin = Origin(sessionId: Id, messageId: Id)
  datatype SaveCall = SaveCall(owner: Id, id: Id, content: Text, origin: Option<Origin>, expected: Option<int>,
    newId: Id)
  datatype SaveOutcome = Saved(id: Id, document: Document) | SaveRefused(error: Error)

  predicate OriginOk(db: Db, c: SaveCall) {
    c.origin.Some? ==>
      var o := c.origin.value;
      && o.sessionId in db.sessions
      && var s := db.sessions[o.sessionId];
      && s.account in db.owners && db.owners[s.account] == c.owner
      && o.messageId in s.messages
      && s.messages[o.messageId].payload.role == "assistant"
      && s.messages[o.messageId].payload.card.Some? && s.messages[o.messageId].payload.card.value.isObject
      && c.id == o.messageId
      && (o.messageId in s.links && s.links[o.messageId] != "" ==>
            s.links[o.messageId] == c.id && c.expected.Some? && c.expected.value > 0)
  }

  /** The row the INSERT or UPDATE of SaveDocument returns, if it touches one. */
  function WriteDocument(documents: map<Id, Document>, c: SaveCall, id: Id): Option<Document> {
    if c.expected.Some? && c.expected.value < 0 then None
    else if c.expected.Some? && c.expected.value > 0 then
      if id in documents && documents[id].owner == c.owner && documents[id].revision == c.expected.value
      then Some(Document(c.owner, c.content, documents[id].revision + 1)) else None
    else if id !in documents then Some(Document(c.owner, c.content, 1))
    else if c.expected.None? && documents[id].owner == c.owner then
      Some(Document(c.owner, c.content, documents[id].revision + 1))
    else None
  }

  /** ON CONFLICT(message_id) DO NOTHING: an existing link stays. */
  function LinkOnce(db: Db, origin: Option<Origin>, id: Id): Db {
    if origin.Some? && origin.value.sessionId in db.sessions
      && origin.value.messageId !in db.sessions[origin.value.sessionId].links
    then
      var s := db.sessions[origin.value.sessionId];
      db.(sessions := db.sessions[origin.value.sessionId := s.(links := s.links[origin.value.messageId := id])])
    else db
  }

  predicate Reads(db: Db, sid: Id, owner: Id, ids: set<Id>)
    requires sid in db.sessions
  {
    var s := db.sessions[sid];
    && s.account in db.owners && db.owners[s.account] == owner
    && s.current.Some? && s.current.value in s.links && s.links[s.current.value] in ids
  }

  function FailPending(runs: map<Id, RunRow>): map<Id, RunRow> {
    map r | r in runs :: if runs[r].status.Pending? then runs[r].(status := Failed) else runs[r]
  }

  function InvalidateSession(s: Session): Session {
    s.(version := s.version + 1, runs := FailPending(s.runs))
  }

  function Invalidate(db: Db, owner: Id, ids: set<Id>): Db {
    db.(sessions := map sid | sid in db.sessions ::
      if Reads(db, sid, owner, ids) then InvalidateSession(db.sessions[sid]) else db.sessions[sid])
  }

  function SaveDocument(db: Db, c: SaveCall): (Db, SaveOutcome) {
    if c.owner == "" then (db, SaveRefused(Invalid))
    else if !OriginOk(db, c) then (db, SaveRefused(Conflict))
    else
      var id := if c.id == "" then c.newId else c.id;
      var row := WriteDocument(db.documents, c, id);
      if row.None? then (db, SaveRefused(Conflict))
      else
        var written := LinkOnce(db.(documents := db.documents[id := row.value]), c.origin, id);
        (Invalidate(written, c.owner, {id}), Saved(id, row.value))
  }

  function DeleteDocuments(db: Db, owner: Id, ids: seq<Id>): Db {
    var valid := set i | i in ids && i != "";
    if valid == {} || owner == "" then db
    else
      var gone := set i | i in valid && i in db.documents && db.documents[i].owner == owner;
      Invalidate(db.(documents := db.documents - gone), owner, valid)
  }

  function DeleteRevision(db: Db, owner: Id, id: Id, revision: int): (Db, bool) {
    if revision >= 1 && id in db.documents && db.documents[id].owner == owner && db.documents[id].revision == revision
    then (Invalidate(db.(documents := db.documents - {id}), owner, {id}), true)
    else (db, false)
  }

  // ------------------------------------------------------------------- steps

  datatype Step =
    | Create(owner: Id, account: Id, sid: Id, title: Text)
    | Begin(begin: BeginCall)
    | Finish(turn: Turn, answer: Payload, accepted: bool, body: Option<Text>, now: int, messageId: Id)
    | Fail(turn: Turn)
    | Cancel(owner: Id, account: Id, sid: Id, requestId: Id)
    | UpdateBusiness(owner: Id, account: Id, sid: Id, version: int, business: Text, now: int)
    | Delete(owner: Id, account: Id, sid: Id, version: int, clear: bool, now: int)
    | SaveMemory(turn: Turn, memory: Text, now: int)
    | Save(save: SaveCall)
    | DeleteDocs(owner: Id, ids: seq<Id>)
    | DeleteRev(owner: Id, id: Id, revision: int)

  /** The database with two history variables: the turns handed out and the ids used so far. */
  datatype System = System(db: Db, turns: set<Turn>, issued: set<Id>)

  function Put(db: Db, sid: Id, s: Session): Db {
    db.(sessions := db.sessions[sid := s])
  }

  ghost function BeginDb(db: Db, c: BeginCall): (Db, BeginOutcome) {
    if !Authorized(db, c.owner, c.account, c.sessionId) then (db, Refused(NotFound))
    else
      var r := BeginSession(db.sessions[c.sessionId], c);
      (Put(db, c.sessionId, r.0), r.1)
  }

  ghost function FinishDb(db: Db, turn: Turn, answer: Payload, accepted: bool, body: Option<Text>, now: int,
                          messageId: Id): (Db, FinishOutcome) {
    if turn.sessionId !in db.sessions then (db, FinishRefused(Conflict))
    else
      var r := FinishSession(db.sessions[turn.sessionId], turn, answer, accepted, body, now, messageId);
      (Put(db, turn.sessionId, r.0), r.1)
  }

  predicate Editable(db: Db, owner: Id, account: Id, sid: Id, version: int, now: int) {
    Authorized(db, owner, account, sid) && db.sessions[sid].version == version && !Busy(db.sessions[sid], now)
  }

  function UpdateBusinessDb(db: Db, owner: Id, account: Id, sid: Id, version: int, business: Text, now: int)
    : (Db, bool) {
    if Editable(db, owner, account, sid, version, now)
    then (Put(db, sid, db.sessions[sid].(version := version + 1, business := business)), true)
    else (db, false)
  }

  function DeleteDb(db: Db, owner: Id, account: Id, sid: Id, version: int, clear: bool, now: int): (Db, bool) {
    if !Editable(db, owner, account, sid, version, now) then (db, false)
    else if clear then (Put(db, sid, ClearSession(db.sessions[sid])), true)
    else (db.(sessions := db.sessions - {sid}), true)
  }

  function FailDb(db: Db, turn: Turn): Db {
    if turn.sessionId in db.sessions then Put(db, turn.sessionId, FailSession(db.sessions[turn.sessionId], turn))
      else db
  }

  function CancelDb(db: Db, owner: Id, account: Id, sid: Id, rid: Id): Db {
    if Authorized(db, owner, account, sid) then Put(db, sid, CancelSession(db.sessions[sid], rid)) else db
  }

  function SaveMemoryDb(db: Db, turn: Turn, memory: Text, now: int): (Db, bool) {
    if turn.sessionId !in db.sessions then (db, false)
    else
      var r := SaveMemorySession(db.sessions[turn.sessionId], turn, memory, now);
      (Put(db, turn.sessionId, r.0), r.1)
  }

  function CreateDb(db: Db, owner: Id, account: Id, sid: Id, title: Text): (Db, bool) {
    if account in db.owners && db.owners[account] == owner && sid !in db.sessions
    then
      var s := Session(account, 0, title, "{}", map[], map[], map[], Some(StateRow("{}", None)), None, map[]);
      (Put(db, sid, s), true)
    else (db, false)
  }

  ghost function ApplyDb(db: Db, step: Step): Db {
    match step
    case Create(o, a, sid, t) => CreateDb(db, o, a, sid, t).0
    case Begin(c) => BeginDb(db, c).0
    case Finish(t, a, ok, b, now, m) => FinishDb(db, t, a, ok, b, now, m).0
    case Fail(t) => FailDb(db, t)
    case Cancel(o, a, sid, r) => CancelDb(db, o, a, sid, r)
    case UpdateBusiness(o, a, sid, v, b, now) => UpdateBusinessDb(db, o, a, sid, v, b, now).0
    case Delete(o, a, sid, v, clear, now) => DeleteDb(db, o, a, sid, v, clear, now).0
    case SaveMemory(t, m, now) => SaveMemoryDb(db, t, m, now).0
    case Save(c) => SaveDocument(db, c).0
    case DeleteDocs(o, ids) => DeleteDocuments(db, o, ids)
    case DeleteRev(o, id, rev) => DeleteRevision(db, o, id, rev).0
  }

  ghost function Apply(y: System, step: Step): System {
    var turns := if step.Begin? && BeginDb(y.db, step.begin).1.Started?
      then y.turns + {BeginDb(y.db, step.begin).1.turn} else y.turns;
    System(ApplyDb(y.db, step), turns, y.issued + NewIds(step))
  }

  function NewIds(step: Step): set<Id> {
    match step
    case Create(_, _, sid, _) => {sid}
    case Begin(c) => {c.messageId, c.token}
    case Finish(_, _, _, _, _, m) => {m}
    case _ => {}
  }

  /** New ids are unused, and running turns come from BeginAIChatTurn. */
  predicate Enabled(y: System, step: Step) {
    && NewIds(step) !! y.issued
    && (step.Begin? ==> step.begin.messageId != step.begin.token)
    && (step.Finish? || step.Fail? || step.SaveMemory? ==> step.turn in y.turns)
  }

  ghost function RunSteps(y: System, steps: seq<Step>): System
    decreases |steps|
  {
    if steps == [] then y else RunSteps(Apply(y, steps[0]), steps[1..])
  }

  ghost predicate ValidRun(y: System, steps: seq<Step>)
    decreases |steps|
  {
    steps == [] || (Enabled(y, steps[0]) && ValidRun(Apply(y, steps[0]), steps[1..]))
  }

  /** No session yet; accounts and saved documents may already exist. */
  predicate Initial(y: System) {
    y.db.sessions == map[] && y.turns == {}
  }
}
