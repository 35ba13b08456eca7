/** What the outbox stores at each operation, and what a recorded result means for the rest of a run. */
module OutboxResults {
  import opened OutboxModel

  ghost predicate OthersKept(t: Table, z: Table, id: Id) {
    forall e :: e != id ==> (e in t <==> e in z) && (e in t ==> z[e] == t[e])
  }

  /** The parts of a record that no operation changes after its creation. */
  predicate SameMail(a: Record, b: Record) {
    && b.account == a.account && b.key == a.key && b.created == a.created && b.payload == a.payload
    && b.messageId == a.messageId
  }

  // ------------------------------------------------------------------ creation

  predicate Waits(s: Status) { s.Failed? || s.Unknown? }

  /**
   A creation stores the draft under a fresh id, queued if it was composed and waiting for the
   user if it was imported, unless its client key is known or the record it replaces is not waiting.
   */
  lemma DraftIsStored(t: Table, d: Draft, id: Id, now: int)
    requires id !in t && d.replacing != id
    ensures var (z, o) := Create(t, d, id, now);
      var key := if d.key == "" then id else d.key;
      var old_ := d.replacing;
      && (o.Existing? <==> exists e :: e in t && t[e].account == d.account && t[e].key == key)
      && (o.Existing? ==> o.id in t && t[o.id].account == d.account && t[o.id].key == key)
      && (o.Busy? ==> old_ != "" && !(old_ in t && t[old_].account == d.account && Waits(t[old_].status)))
      && (!o.Inserted? ==> z == t)
      && (o.Inserted? ==>
           && id == o.id && z.Keys == t.Keys + {id}
           && z[id] == Record(d.account, key, z[id].status, d.error, now, d.payload, 0, d.messageId, d.message)
           && z[id].status == (match d.origin case Composed => Queued case ImportedFailed => Failed
                                              case ImportedUnknown => Unknown)
           && (forall e :: e in t && e != old_ ==> z[e] == t[e])
           && (old_ != "" ==> old_ in t && t[old_].account == d.account && Waits(t[old_].status)
                              && z[old_] == t[old_].(status := Superseded)))
  {
    CreateEffect(t, d, id, now);
    var key := KeyOf(d, id);
    assert forall e :: HasKey(t, d.account, key, e) <==> e in t && t[e].account == d.account && t[e].key == key;
  }

  // ------------------------------------------------------------ claims, results

  /** A claim takes a queued record that none is older than, counts the attempt and clears the last error. */
  lemma ClaimIsCounted(t: Table, id: Id)
    ensures Claimable(t, id) <==>
      id in t && t[id].status == Queued && forall e :: e in t && t[e].status == Queued ==> t[id].created <= t[e].created
    ensures Claimable(t, id) ==>
      var z := Claim(t, id);
      && id in z && OthersKept(t, z, id) && SameMail(t[id], z[id]) && z[id].message == t[id].message
      && z[id].status == Sending && z[id].attempts == t[id].attempts + 1 && z[id].error == ""
  {}

  const HEX := "0123456789abcdefABCDEF"

  lemma HexDigits(c: char)
    ensures IsHex(c) <==> c in HEX
  {
    if IsHex(c) {
      var i := c as int - if c <= '9' then 48 else if c <= 'F' then 49 else 87;
      assert HEX[i] == c;
    }
  }

  /** The provider's prefix: a bracket, sixteen hexadecimal digits and a plus sign. */
  lemma WhatIsPrefixed(m: string)
    ensures Prefixed(m) <==> |m| >= 18 && m[0] == '<' && m[17] == '+' && forall c :: c in m[1..17] ==> c in HEX
  {
    forall c: char ensures IsHex(c) <==> c in HEX { HexDigits(c); }
    if |m| >= 18 {
      assert |m[1..17]| == 16 && forall i :: 1 <= i < 17 ==> m[1..17][i - 1] == m[i];
    }
  }

  /** A result is accepted exactly for the account's record in flight, and stored as it was given. */
  lemma ResultIsStored(t: Table, account: Id, id: Id, status: Status, error: string, stamped: string)
    ensures var (z, o) := Finish(t, account, id, status, error, stamped);
      && (o.Done? <==> (status == Failed || status == Unknown || status == Sent)
                       && id in t && t[id].account == account && t[id].status == Sending)
      && (!o.Done? ==> z == t)
      && (o.Done? ==>
           && id in z && OthersKept(t, z, id) && SameMail(t[id], z[id]) && z[id].attempts == t[id].attempts
           && z[id].status == status && z[id].error == error
           && z[id].message == if status == Sent then stamped else t[id].message)
  {}

  /** After a restart nobody knows whether the mail in flight went out; nothing else changes. */
  lemma RestartMakesUnknown(t: Table)
    ensures var z := Recover(t);
      && z.Keys == t.Keys
      && forall id :: id in t ==>
           if t[id].status == Sending then z[id] == t[id].(status := Unknown, error := RESTARTED) else z[id] == t[id]
  {}

  /** Exactly a failed or unknown record with a payload and without a mirrored copy is queued again, as it was. */
  lemma RetryQueuesAgain(t: Table, account: Id, id: Id, tencent: bool, copies: set<string>)
    ensures var (z, o) := Retry(t, account, id, tencent, copies);
      && (o.Done? <==> id in t && t[id].account == account && (t[id].status == Failed || t[id].status == Unknown)
                       && t[id].payload && forall m :: m in copies ==> !SqlMatch(tencent, m, t[id].messageId))
      && (!o.Done? ==> z == t)
      && (o.Done? ==> id in z && OthersKept(t, z, id) && z[id] == t[id].(status := Queued, error := ""))
  {}

  /** A record is deleted exactly for its account and not while it is in flight; nothing else goes. */
  lemma WhatIsDeleted(t: Table, account: Id, id: Id)
    ensures var (z, o) := Delete(t, account, id);
      && (o.Done? <==> id in t && t[id].account == account && t[id].status != Sending)
      && z == if o.Done? then t - {id} else t
  {}

  // ---------------------------------------------------------------------- runs

  predicate Touches(step: Step, id: Id) {
    || (step.DeleteStep? && step.id == id)
    || (step.RetryStep? && step.id == id)
    || (step.CreateStep? && step.draft.replacing == id)
  }

  predicate Deletes(step: Step, id: Id) { step.DeleteStep? && step.id == id }

  lemma StepKeepsResting(y: System, step: Step, id: Id)
    requires Enabled(y, step) && y.table.Keys <= y.issued && id in y.table
    requires !y.table[id].status.Queued? && !y.table[id].status.Sending? && !Deletes(step, id)
    requires Waits(y.table[id].status) ==> !Touches(step, id)
    ensures id in Apply(y, step).table && Apply(y, step).table[id] == y.table[id] && step != ClaimStep(id)
  {
    if step.CreateStep? { CreateEffect(y.table, step.draft, step.id, step.now); }
  }

  /** A record outside queue and flight stays as it is until the user retries, replaces or deletes it. */
  lemma {:induction false} RestingRecordIsKept(y: System, steps: seq<Step>, id: Id)
    requires Ok(y) && ValidRun(y, steps) && id in y.table
    requires !y.table[id].status.Queued? && !y.table[id].status.Sending?
    requires forall s :: s in steps ==> !Deletes(s, id) && (Waits(y.table[id].status) ==> !Touches(s, id))
    ensures var z := RunSteps(y, steps).table; id in z && z[id] == y.table[id]
    ensures ClaimStep(id) !in steps
    decreases |steps|
  {
    if steps != [] {
      assert steps[0] in steps;
      StepKeeps(y, steps[0]);
      StepKeepsResting(y, steps[0], id);
      RestingRecordIsKept(Apply(y, steps[0]), steps[1..], id);
    }
  }

  /** Mail that was recorded as sent is never claimed or queued again, and its record stays as it is. */
  lemma SentIsFinal(y: System, sent: Step, steps: seq<Step>, account: Id, tencent: bool, copies: set<string>)
    requires Ok(y) && sent.FinishStep? && sent.status == Sent && ValidRun(Apply(y, sent), steps)
    requires Finish(y.table, sent.account, sent.id, Sent, sent.error, sent.stamped).1.Done?
    requires forall s :: s in steps ==> !Deletes(s, sent.id)
    ensures var z := RunSteps(Apply(y, sent), steps).table;
      && sent.id in z && z[sent.id].status == Sent && z[sent.id].message == sent.stamped
      && Retry(z, account, sent.id, tencent, copies) == (z, Refused)
    ensures ClaimStep(sent.id) !in steps
  {
    StepKeeps(y, sent);
    RestingRecordIsKept(Apply(y, sent), steps, sent.id);
  }

  /**
   A recorded failure, or a result nobody knows, waits for the user: until the record is retried,
   replaced or deleted it is not claimed, and a retry queues it exactly if it has its payload and
   no copy in the mailbox.
   */
  lemma FailureWaitsForTheUser(y: System, failed: Step, steps: seq<Step>, tencent: bool, copies: set<string>)
    requires Ok(y) && failed.FinishStep? && Waits(failed.status) && ValidRun(Apply(y, failed), steps)
    requires Finish(y.table, failed.account, failed.id, failed.status, failed.error, failed.stamped).1.Done?
    requires forall s :: s in steps ==> !Touches(s, failed.id)
    ensures var z := RunSteps(Apply(y, failed), steps).table;
      var (n, o) := Retry(z, failed.account, failed.id, tencent, copies);
      && failed.id in z && z[failed.id].status == failed.status && z[failed.id].error == failed.error
      && (o.Done? <==> y.table[failed.id].payload
                       && forall m :: m in copies ==> !SqlMatch(tencent, m, y.table[failed.id].messageId))
      && (o.Done? ==> failed.id in n && n[failed.id].status == Queued)
    ensures ClaimStep(failed.id) !in steps
  {
    StepKeeps(y, failed);
    RestingRecordIsKept(Apply(y, failed), steps, failed.id);
  }

  /** A crash while mail is in flight leaves the decision to the user in the same way. */
  lemma CrashWaitsForTheUser(y: System, steps: seq<Step>, id: Id, tencent: bool, copies: set<string>)
    requires Ok(y) && InFlight(y.table, id) && ValidRun(Apply(y, RecoverStep), steps)
    requires forall s :: s in steps ==> !Touches(s, id)
    ensures var z := RunSteps(Apply(y, RecoverStep), steps).table;
      && id in z && z[id].status == Unknown && z[id].error == RESTARTED
      && (Retry(z, y.table[id].account, id, tencent, copies).1.Done? <==>
            y.table[id].payload && forall m :: m in copies ==> !SqlMatch(tencent, m, y.table[id].messageId))
    ensures ClaimStep(id) !in steps
  {
    StepKeeps(y, RecoverStep);
    RestingRecordIsKept(Apply(y, RecoverStep), steps, id);
  }
}
