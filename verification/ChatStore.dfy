/**
 The chat and document operations as the store runs them: one transaction each,
 statement by statement, with an explicit rollback. Every method is tied to its
 function in ChatModel, about which the run theorems are proved.
 */
module ChatStore {
  import opened Wrappers
  import opened ChatModel

  class Store {
    var owners: map<Id, Id>               // mail_accounts: account to owner
    var sessions: map<Id, Session>
    var documents: map<Id, Document>

    ghost function View(): Db
      reads this
    {
      Db(owners, sessions, documents)
    }

    constructor (accounts: map<Id, Id>)
      ensures View() == Db(accounts, map[], map[])
    {
      owners, sessions, documents := accounts, map[], map[];
    }

    /** SELECT MAX(position) + 1: scan the rows of one session. */
    static method MaxPosition(messages: map<Id, Message>) returns (n: int)
      ensures n == NextPosition(messages)
    {
      var rest := messages.Keys;
      n := 0;
      var any := false;
      while rest != {}
        invariant rest <= messages.Keys
        invariant any <==> rest != messages.Keys
        invariant !any ==> n == 0
        invariant forall m :: m in messages && m !in rest ==> messages[m].position < n
        invariant any ==> exists m :: m in messages && messages[m].position == n - 1
        decreases rest
      {
        var m :| m in rest;
        if !any || messages[m].position >= n {
          n := messages[m].position + 1;
        }
        any := true;
        rest := rest - {m};
      }
      NextPositionUnique(messages, n, NextPosition(messages));
    }

    static lemma NextPositionUnique(messages: map<Id, Message>, a: int, b: int)
      requires IsNextPosition(messages, a) && IsNextPosition(messages, b)
      ensures a == b
    {}

    /** COUNT(*) of pending runs whose lease is later than now. */
    static method CountLive(runs: map<Id, RunRow>, now: int) returns (count: nat)
      ensures count == |set r | r in runs && Live(runs[r], now)|
    {
      var rest := runs.Keys;
      count := 0;
      while rest != {}
        invariant rest <= runs.Keys
        invariant count == |set r | r in runs && r !in rest && Live(runs[r], now)|
        decreases rest
      {
        var r :| r in rest;
        ghost var before := set q | q in runs && q !in rest && Live(runs[q], now);
        ghost var after := set q | q in runs && q !in rest - {r} && Live(runs[q], now);
        rest := rest - {r};
        if Live(runs[r], now) {
          assert after == before + {r};
          count := count + 1;
        } else {
          assert after == before;
        }
      }
      assert (set r | r in runs && Live(runs[r], now)) == (set r | r in runs && r !in rest && Live(runs[r], now));
    }

    static lemma CountMeansBusy(s: Session, now: int)
      ensures |set r | r in s.runs && Live(s.runs[r], now)| > 0 <==> Busy(s, now)
    {
      var live := set r | r in s.runs && Live(s.runs[r], now);
      if Busy(s, now) {
        var r :| r in s.runs && Live(s.runs[r], now);
        assert r in live;
      }
      if |live| > 0 {
        var r :| r in live;
      }
    }

    /** insertAIChatMessage, inside the caller's transaction on session s. */
    static method InsertMessage(s: Session, id: Id, payload: Payload) returns (t: Session)
      ensures t == Insert(s, id, NextPosition(s.messages), payload)
    {
      var n := MaxPosition(s.messages);
      t := Insert(s, id, n, payload);
    }

    /** The checks of BeginAIChatTurn, in order; none of them writes. */
    static method CheckBegin(s: Session, c: BeginCall) returns (a: Admission)
      ensures a == Admit(s, c)
    {
      var retry := c.requestId in s.runs;
      if retry {
        var run := s.runs[c.requestId];
        if run.hash != c.hash { return Deny; }
        if run.status.Complete? { return Replay; }
        if run.status.Pending? && run.leaseUntil > c.first { return Deny; }
        if s.version != run.userVersion { return Deny; }
      } else if s.version != c.version {
        return Deny;
      }
      var active := CountLive(s.runs, c.count);
      CountMeansBusy(s, c.count);
      if active > 0 { return Deny; }
      a := if retry then Retry else Fresh;
    }

    /** A transaction on one session: its statements change the local copy, and only the last line commits. */
    method BeginTurn(c: BeginCall) returns (out: BeginOutcome)
      modifies this`sessions
      ensures View() == BeginDb(old(View()), c).0 && out == BeginDb(old(View()), c).1
      ensures out.Started? && out.turn.userMessageId == c.messageId ==>
        && c.sessionId in sessions && out.turn.version == sessions[c.sessionId].version
        && (c.requestId !in old(sessions)[c.sessionId].runs ==>
              c.messageId in sessions[c.sessionId].messages
              && sessions[c.sessionId].messages[c.messageId].payload == c.user)
    {
      if !Authorized(Db(owners, sessions, documents), c.owner, c.account, c.sessionId) { return Refused(NotFound); }
      assert sessions[c.sessionId := sessions[c.sessionId]] == sessions;
      var s := sessions[c.sessionId];
      var admission := CheckBegin(s, c);
      if admission.Deny? { return Refused(Conflict); }
      if admission.Replay? { return Replayed(s.runs[c.requestId].response); }
      var retry := admission.Retry?;
      var current := s.version;
      var userMessageId := if retry then s.runs[c.requestId].userMessageId else c.messageId;
      if !retry {
        if !c.accepted { return Refused(Invalid); }
        s := InsertMessage(s, c.messageId, c.user);
        if !c.draft.Absent? {
          if c.draft.Malformed? { return Refused(Invalid); }
          s := s.(state := WithSnapshot(s.state, c.draft.value));
          s := s.(current := None);
        }
        current := current + 1;
      }
      s := s.(version := current, business := c.business, title := Retitle(s.title, current, c.user.content));
      var row := if retry then
        s.runs[c.requestId].(token := c.token, status := Pending, leaseUntil := c.lease + LEASE_SECONDS)
                 else RunRow(c.hash, c.token, Pending, c.lease + LEASE_SECONDS, userMessageId, current, None);
      s := s.(runs := s.runs[c.requestId := row]);
      if !retry && !c.request.Absent? {
        if c.request.Malformed? { return Refused(Invalid); }
        s := s.(inputs := s.inputs[c.requestId := c.request.value]);
      }
      sessions := sessions[c.sessionId := s];
      return Started(Turn(c.sessionId, c.requestId, c.token, userMessageId, current));
    }

    method FinishTurn(turn: Turn, answer: Payload, accepted: bool, body: Option<Text>, now: int, messageId: Id)
      returns (out: FinishOutcome)
      modifies this`sessions
      ensures View() == FinishDb(old(View()), turn, answer, accepted, body, now, messageId).0
      ensures out == FinishDb(old(View()), turn, answer, accepted, body, now, messageId).1
      ensures out.Finished? ==>
        && turn.sessionId in sessions && messageId in sessions[turn.sessionId].messages
        && sessions[turn.sessionId].messages[messageId].payload == answer
        && out.response.messageId == messageId && out.response.version == sessions[turn.sessionId].version
    {
      if turn.sessionId !in sessions { return FinishRefused(Conflict); }
      assert sessions[turn.sessionId := sessions[turn.sessionId]] == sessions;
      var s := sessions[turn.sessionId];
      if !Holds(s, turn, now) { return FinishRefused(Conflict); }
      s := s.(runs := s.runs[turn.requestId := s.runs[turn.requestId].(status := Complete)]);
      var version := s.version;
      if version != turn.version { return FinishRefused(Conflict); }
      if !accepted { return FinishRefused(Invalid); }
      s := InsertMessage(s, messageId, answer);
      if answer.card.Some? {
        s := s.(state := WithSnapshot(s.state, answer.card));
        s := s.(current := Some(messageId));
      }
      if body.None? { return FinishRefused(Invalid); }
      var response := Response(messageId, version + 1, body.value);
      s := s.(version := s.version + 1);
      s := s.(runs := s.runs[turn.requestId := s.runs[turn.requestId].(response := Some(response))]);
      sessions := sessions[turn.sessionId := s];
      assert s.runs == old(sessions)[turn.sessionId].runs[turn.requestId :=
        old(sessions)[turn.sessionId].runs[turn.requestId].(status := Complete, response := Some(response))];
      return Finished(response);
    }

    method FailTurn(turn: Turn)
      modifies this`sessions
      ensures View() == FailDb(old(View()), turn)
    {
      if turn.sessionId in sessions {
        assert sessions[turn.sessionId := sessions[turn.sessionId]] == sessions;
        var s := sessions[turn.sessionId];
        if turn.requestId in s.runs && s.runs[turn.requestId].token == turn.token
          && s.runs[turn.requestId].status.Pending? {
          sessions := sessions[turn.sessionId :=
            s.(runs := s.runs[turn.requestId := s.runs[turn.requestId].(status := Failed)])];
        }
      }
    }

    /** The first statement fails a pending run; the second drops the input of a failed one. */
    method CancelRequest(owner: Id, account: Id, sid: Id, rid: Id)
      modifies this`sessions
      ensures View() == CancelDb(old(View()), owner, account, sid, rid)
    {
      if Authorized(Db(owners, sessions, documents), owner, account, sid) {
        assert sessions[sid := sessions[sid]] == sessions;
        var s := sessions[sid];
        if rid in s.runs && s.runs[rid].status.Pending? {
          s := s.(runs := s.runs[rid := s.runs[rid].(status := Failed)]);
        }
        if rid in s.runs && s.runs[rid].status.Failed? {
          s := s.(inputs := s.inputs - {rid});
          assert s.runs[rid := s.runs[rid]] == s.runs;
        }
        sessions := sessions[sid := s];
      }
    }

    method UpdateBusiness(owner: Id, account: Id, sid: Id, version: int, business: Text, now: int) returns (ok: bool)
      modifies this`sessions
      ensures View() == UpdateBusinessDb(old(View()), owner, account, sid, version, business, now).0
      ensures ok == UpdateBusinessDb(old(View()), owner, account, sid, version, business, now).1
    {
      ok := CheckEditable(owner, account, sid, version, now);
      if ok {
        sessions := sessions[sid := sessions[sid].(business := business, version := sessions[sid].version + 1)];
      }
    }

    method CheckEditable(owner: Id, account: Id, sid: Id, version: int, now: int) returns (ok: bool)
      ensures ok == Editable(View(), owner, account, sid, version, now)
    {
      ok := Authorized(Db(owners, sessions, documents), owner, account, sid) && sessions[sid].version == version;
      if ok {
        var active := CountLive(sessions[sid].runs, now);
        CountMeansBusy(sessions[sid], now);
        ok := active == 0;
      }
    }

    /**
     Clearing deletes state, runs (with their inputs) and messages (with the card and link
     rows); deleting drops the session row.
     */
    method DeleteSession(owner: Id, account: Id, sid: Id, version: int, clear: bool, now: int) returns (ok: bool)
      modifies this`sessions
      ensures View() == DeleteDb(old(View()), owner, account, sid, version, clear, now).0
      ensures ok == DeleteDb(old(View()), owner, account, sid, version, clear, now).1
    {
      ok := CheckEditable(owner, account, sid, version, now);
      if ok {
        var s := sessions[sid].(version := sessions[sid].version + 1);
        if clear {
          s := s.(state := None);
          s := s.(runs := map[], inputs := map[]);
          s := s.(messages := map[], current := None, links := map[]);
          sessions := sessions[sid := s];
        } else {
          sessions := sessions - {sid};
        }
      }
    }

    method SaveMemory(turn: Turn, memory: Text, now: int) returns (ok: bool)
      modifies this`sessions
      ensures View() == SaveMemoryDb(old(View()), turn, memory, now).0
      ensures ok == SaveMemoryDb(old(View()), turn, memory, now).1
    {
      ok := turn.sessionId in sessions && Holds(sessions[turn.sessionId], turn, now)
        && sessions[turn.sessionId].version == turn.version;
      if turn.sessionId in sessions {
        assert sessions[turn.sessionId := sessions[turn.sessionId]] == sessions;
        var s := sessions[turn.sessionId];
        if ok {
          sessions := sessions[turn.sessionId :=
            s.(state := Some(StateRow(memory, if s.state.Some? then s.state.value.snapshot else None)))];
        }
      }
    }

    method CreateSession(owner: Id, account: Id, sid: Id, title: Text) returns (ok: bool)
      modifies this`sessions
      ensures View() == CreateDb(old(View()), owner, account, sid, title).0
      ensures ok == CreateDb(old(View()), owner, account, sid, title).1
    {
      ok := account in owners && owners[account] == owner && sid !in sessions;
      if ok {
        sessions := sessions[sid := Session(account, 0, title, "{}", map[], map[], map[], None, None, map[])];
        sessions := sessions[sid := sessions[sid].(state := Some(StateRow("{}", None)))];
      }
    }

    /** Two UPDATE statements over the sessions whose current card is linked to one of the documents. */
    method InvalidateReaders(owner: Id, ids: set<Id>)
      modifies this`sessions
      ensures View() == Invalidate(old(View()), owner, ids)
    {
      var db := Db(owners, sessions, documents);
      sessions := map sid | sid in db.sessions ::
        if Reads(db, sid, owner, ids) then db.sessions[sid].(runs := FailPending(db.sessions[sid].runs))
          else db.sessions[sid];
      var half := Db(owners, sessions, documents);
      sessions := map sid | sid in half.sessions ::
        if Reads(half, sid, owner, ids) then half.sessions[sid].(version := half.sessions[sid].version + 1)
          else half.sessions[sid];
      assert View().sessions == Invalidate(old(View()), owner, ids).sessions;
    }

    /** The UPDATE under a positive revision, else the INSERT with or without its conflict branch. */
    method RowToWrite(c: SaveCall, id: Id) returns (row: Option<Document>)
      ensures row == WriteDocument(documents, c, id)
    {
      if c.expected.Some? && c.expected.value < 0 { return None; }
      var revision := 1;
      if c.expected.Some? && c.expected.value > 0 {
        if id !in documents || documents[id].owner != c.owner || documents[id].revision != c.expected.value {
          return None;
        }
        revision := documents[id].revision + 1;
      } else if id in documents {
        if c.expected.Some? || documents[id].owner != c.owner { return None; }
        revision := documents[id].revision + 1;
      }
      return Some(Document(c.owner, c.content, revision));
    }

    method SaveDocumentRow(c: SaveCall) returns (out: SaveOutcome)
      modifies this`sessions, this`documents
      ensures View() == SaveDocument(old(View()), c).0 && out == SaveDocument(old(View()), c).1
      ensures out.Saved? ==> out.id in documents && documents[out.id].content == c.content
      ensures out.Saved? && out.id in old(documents) ==>
        && documents[out.id].revision == old(documents)[out.id].revision + 1
        && (c.expected.Some? ==> c.expected.value == old(documents)[out.id].revision)
    {
      if c.owner == "" { return SaveRefused(Invalid); }
      if !OriginOk(Db(owners, sessions, documents), c) { return SaveRefused(Conflict); }
      var id := if c.id == "" then c.newId else c.id;
      var row := RowToWrite(c, id);
      if row.None? { return SaveRefused(Conflict); }
      documents := documents[id := row.value];
      if c.origin.Some? {
        var o := c.origin.value;
        var s := sessions[o.sessionId];
        if o.messageId !in s.links {
          sessions := sessions[o.sessionId := s.(links := s.links[o.messageId := id])];
        }
      }
      assert View() == LinkOnce(old(View()).(documents := documents), c.origin, id);
      InvalidateReaders(c.owner, {id});
      out := Saved(id, row.value);
    }

    method DeleteDocumentRows(owner: Id, ids: seq<Id>)
      modifies this`sessions, this`documents
      ensures View() == DeleteDocuments(old(View()), owner, ids)
    {
      var valid := set i | i in ids && i != "";
      if valid == {} || owner == "" { return; }
      documents := documents - (set i | i in valid && i in documents && documents[i].owner == owner);
      InvalidateReaders(owner, valid);
    }

    method DeleteDocumentRevision(owner: Id, id: Id, revision: int) returns (ok: bool)
      modifies this`sessions, this`documents
      ensures View() == DeleteRevision(old(View()), owner, id, revision).0
      ensures ok == DeleteRevision(old(View()), owner, id, revision).1
    {
      if revision < 1 { return false; }
      ok := id in documents && documents[id].owner == owner && documents[id].revision == revision;
      if ok {
        documents := documents - {id};
        InvalidateReaders(owner, {id});
      }
    }
  }
}
