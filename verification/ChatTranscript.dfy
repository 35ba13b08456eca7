/**
 Transcript integrity. For every interleaving of the store operations, and for
 arbitrary clock readings, the messages of a session are numbered 0..n-1, each
 request contributes one question and at most one answer, and an answer sits
 right after its own question.
 */
module ChatTranscript {
  import opened Wrappers
  import opened ChatModel

  ghost predicate At(messages: map<Id, Message>, m: Id, i: int) {
    m in messages && messages[m].position == i
  }

  ghost predicate Filled(messages: map<Id, Message>, i: int) {
    exists m :: At(messages, m, i)
  }

  /** Positions are exactly 0..n-1, each taken once. */
  ghost predicate Contiguous(messages: map<Id, Message>) {
    && (forall m :: m in messages ==> 0 <= messages[m].position < |messages|)
    && (forall m, n :: m in messages && n in messages && messages[m].position == messages[n].position ==> m == n)
    && (forall i :: 0 <= i < |messages| ==> Filled(messages, i))
  }

  /** Message m is the question, or the answer, of request r. */
  ghost predicate Asks(s: Session, r: Id, m: Id) {
    r in s.runs && s.runs[r].userMessageId == m
  }

  ghost predicate Replies(s: Session, r: Id, m: Id) {
    r in s.runs && s.runs[r].status.Complete? && s.runs[r].response.Some? && s.runs[r].response.value.messageId == m
  }

  ghost predicate Accounted(s: Session, m: Id) {
    exists r :: Asks(s, r, m) || Replies(s, r, m)
  }

  ghost predicate RunOk(s: Session, run: RunRow) {
    && run.userMessageId in s.messages
    && run.userVersion <= s.version
    && (run.userVersion == s.version ==> s.messages[run.userMessageId].position == |s.messages| - 1)
    && (run.status.Complete? <==> run.response.Some?)
    && (run.status.Complete? ==>
          && run.userVersion < s.version
          && At(s.messages, run.response.value.messageId, s.messages[run.userMessageId].position + 1))
  }

  ghost predicate RunsOk(s: Session) {
    forall r :: r in s.runs ==> RunOk(s, s.runs[r])
  }

  ghost predicate RunsDistinct(s: Session) {
    forall r, q :: r in s.runs && q in s.runs && r != q ==>
      s.runs[r].userMessageId != s.runs[q].userMessageId && s.runs[r].userVersion != s.runs[q].userVersion
  }

  /** Every message is one request's question or one request's answer, never both. */
  ghost predicate OneAuthor(s: Session) {
    && (forall m :: m in s.messages ==> Accounted(s, m))
    && (forall r, q, m :: Asks(s, r, m) && Replies(s, q, m) ==> false)
  }

  ghost predicate TranscriptOk(s: Session) {
    Contiguous(s.messages) && RunsOk(s) && RunsDistinct(s) && OneAuthor(s)
  }

  // ------------------------------------------------- the four kinds of change

  /** Messages, questions and answers stay; status, leases and the version may move. */
  ghost predicate Quiet(s: Session, t: Session) {
    && t.messages == s.messages && t.version >= s.version && (forall r :: r in t.runs <==> r in s.runs)
    && (forall r :: r in s.runs ==>
          && t.runs[r].userMessageId == s.runs[r].userMessageId && t.runs[r].userVersion == s.runs[r].userVersion
          && t.runs[r].response == s.runs[r].response && t.runs[r].status.Complete? == s.runs[r].status.Complete?)
  }

  /** A new request appends its question and takes the next version. */
  ghost predicate Asked(s: Session, t: Session, r: Id, m: Id) {
    && r !in s.runs && t.version == s.version + 1
    && (exists p :: t.messages == s.messages[m := Message(NextPosition(s.messages), p)])
    && r in t.runs && t.runs[r].status.Pending? && t.runs[r].response.None?
    && t.runs == s.runs[r := t.runs[r]]
    && t.runs[r].userMessageId == m && t.runs[r].userVersion == t.version
  }

  /** The run that holds the head version appends its answer and takes the next version. */
  ghost predicate Replied(s: Session, t: Session, r: Id, m: Id) {
    && r in s.runs && !s.runs[r].status.Complete? && s.runs[r].userVersion == s.version && t.version == s.version + 1
    && (exists p :: t.messages == s.messages[m := Message(NextPosition(s.messages), p)])
    && r in t.runs && t.runs[r].status.Complete? && t.runs[r].response.Some? && t.runs[r].response.value.messageId == m
    && t.runs == s.runs[r := t.runs[r]]
    && t.runs[r].userMessageId == s.runs[r].userMessageId && t.runs[r].userVersion == s.runs[r].userVersion
  }

  ghost predicate Cleared(t: Session) {
    t.messages == map[] && t.runs == map[]
  }

  lemma NextIsCount(messages: map<Id, Message>)
    requires Contiguous(messages)
    ensures NextPosition(messages) == |messages|
  {
    if messages != map[] {
      var n := NextPosition(messages);
      assert Filled(messages, |messages| - 1);
      var m :| At(messages, m, |messages| - 1);
    }
  }

  lemma AppendKeepsContiguous(messages: map<Id, Message>, id: Id, payload: Payload)
    requires Contiguous(messages) && id !in messages
    ensures Contiguous(messages[id := Message(NextPosition(messages), payload)])
    ensures NextPosition(messages) == |messages|
  {
    NextIsCount(messages);
    var more := messages[id := Message(|messages|, payload)];
    assert more.Keys == messages.Keys + {id};
    forall i {:trigger Filled(more, i)} | 0 <= i < |more| ensures Filled(more, i) {
      if i < |messages| {
        assert Filled(messages, i);
        var m :| At(messages, m, i);
        assert At(more, m, i);
      } else {
        assert At(more, id, i);
      }
    }
  }

  lemma QuietKeeps(s: Session, t: Session)
    requires TranscriptOk(s) && Quiet(s, t)
    ensures TranscriptOk(t)
  {
    forall r | r in t.runs ensures RunOk(t, t.runs[r]) {
      assert RunOk(s, s.runs[r]);
    }
    forall m | m in t.messages ensures Accounted(t, m) {
      assert Accounted(s, m);
      var r :| Asks(s, r, m) || Replies(s, r, m);
      assert Asks(t, r, m) || Replies(t, r, m);
    }
    forall r, q, m | Asks(t, r, m) && Replies(t, q, m) ensures false {
      assert Asks(s, r, m) && Replies(s, q, m);
    }
  }

  lemma RunsAfterAsk(s: Session, t: Session, r: Id, m: Id)
    requires RunsOk(s) && RunsDistinct(s) && Asked(s, t, r, m) && m !in s.messages
    requires NextPosition(s.messages) == |s.messages|
    ensures RunsOk(t) && RunsDistinct(t)
  {
    assert |t.messages| == |s.messages| + 1 by { assert t.messages.Keys == s.messages.Keys + {m}; }
    forall q | q in t.runs
      ensures RunOk(t, t.runs[q])
      ensures q != r ==> t.runs[q].userMessageId != m && t.runs[q].userVersion < t.version
    {
      if q != r { assert t.runs[q] == s.runs[q] && RunOk(s, s.runs[q]); }
    }
  }

  lemma RunsAfterReply(s: Session, t: Session, r: Id, m: Id)
    requires RunsOk(s) && RunsDistinct(s) && Replied(s, t, r, m) && m !in s.messages
    requires NextPosition(s.messages) == |s.messages|
    ensures RunsOk(t) && RunsDistinct(t)
  {
    forall q | q in t.runs ensures RunOk(t, t.runs[q]) {
      assert RunOk(s, s.runs[q]);
      if q != r { assert t.runs[q] == s.runs[q]; }
    }
    forall q | q in t.runs
      ensures t.runs[q].userMessageId == s.runs[q].userMessageId && t.runs[q].userVersion == s.runs[q].userVersion
    {
      if q != r { assert t.runs[q] == s.runs[q]; }
    }
  }

  lemma AppendKeeps(s: Session, t: Session, r: Id, m: Id)
    requires TranscriptOk(s) && m !in s.messages
    requires Asked(s, t, r, m) || Replied(s, t, r, m)
    ensures TranscriptOk(t)
  {
    var p :| t.messages == s.messages[m := Message(NextPosition(s.messages), p)];
    AppendKeepsContiguous(s.messages, m, p);
    if Asked(s, t, r, m) { RunsAfterAsk(s, t, r, m); } else { RunsAfterReply(s, t, r, m); }
    OneAuthorAfterAppend(s, t, r, m);
  }

  /** Adding message m for request r, as its question or as its answer, keeps one author per message. */
  lemma OneAuthorAfterAppend(s: Session, t: Session, r: Id, m: Id)
    requires RunsOk(s) && OneAuthor(s) && m !in s.messages
    requires Asked(s, t, r, m) || Replied(s, t, r, m)
    ensures OneAuthor(t)
  {
    forall x | x in t.messages ensures Accounted(t, x) {
      if x == m {
        assert Asks(t, r, m) || Replies(t, r, m);
      } else {
        assert Accounted(s, x);
        var q :| Asks(s, q, x) || Replies(s, q, x);
        assert Asks(t, q, x) || Replies(t, q, x);
      }
    }
    forall q, u, x | Asks(t, q, x) && Replies(t, u, x) ensures false {
      if q in s.runs { assert RunOk(s, s.runs[q]); }
      if u in s.runs { assert RunOk(s, s.runs[u]); }
      if x != m { assert Asks(s, q, x) && Replies(s, u, x); }
    }
  }

  lemma ClearedKeeps(t: Session)
    requires Cleared(t)
    ensures TranscriptOk(t)
  {}
}
