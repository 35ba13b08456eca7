/** The outbox operations as the store runs them, each one statement or one transaction. */
module OutboxStore {
  import opened Wrappers
  import opened OutboxModel

  /** OutgoingMirrorMessageID: strips the provider's prefix, digit by digit checked, from a stored copy's id. */
  method OutgoingMirrorMessageID(tencent: bool, id: string) returns (r: string)
    ensures r == MirrorId(tencent, id)
  {
    var length := Bytes(id);
    if !tencent || length < 20 || |id| < 18 || id[0] != '<' || id[17] != '+' { return id; }
    var i := 1;
    while i < 17
      invariant 1 <= i <= 17 && forall j :: 1 <= j < i ==> IsHex(id[j])
    {
      if !IsHex(id[i]) { return id; }
      i := i + 1;
    }
    return "<" + id[18..];
  }

  class Store {
    var table: Table

    constructor ()
      ensures table == map[]
    {
      table := map[];
    }

    /** The row a client key already names, if any. */
    method Find(account: Id, key: string) returns (found: Option<Id>)
      ensures found.Some? ==> HasKey(table, account, key, found.value)
      ensures found.None? ==> forall e :: !HasKey(table, account, key, e)
    {
      var rest := table.Keys;
      while rest != {}
        invariant rest <= table.Keys && forall e :: e in table && e !in rest ==> !HasKey(table, account, key, e)
        decreases rest
      {
        var e :| e in rest;
        if table[e].account == account && table[e].key == key { return Some(e); }
        rest := rest - {e};
      }
      return None;
    }

    /**
     The insert and the superseding commit together; a replacement that is not there to
     supersede undoes the insert.
     */
    method CreateOutgoing(d: Draft, id: Id, now: int) returns (r: Created)
      requires KeysUnique(table)
      modifies this
      ensures (table, r) == Create(old(table), d, id, now)
    {
      var key := if d.key == "" then id else d.key;
      var known := Find(d.account, key);
      if known.Some? {
        assert HasKey(table, d.account, key, known.value);
        return Existing(known.value);
      }
      var n := table[id :=
        Record(d.account, key, StartStatus(d.origin), d.error, now, d.payload, 0, d.messageId, d.message)];
      if d.replacing != "" {
        if !(d.replacing in n && n[d.replacing].account == d.account
          && (n[d.replacing].status.Failed? || n[d.replacing].status.Unknown?)) {
          return Busy;
        }
        n := n[d.replacing := n[d.replacing].(status := Superseded)];
      }
      table := n;
      return Inserted(id);
    }

    /** The oldest queued record, or nothing. */
    method ClaimOutgoing() returns (claimed: Option<Id>)
      modifies this
      ensures claimed.Some? ==> Claimable(old(table), claimed.value) && table == Claim(old(table), claimed.value)
      ensures claimed.None? ==> table == old(table) && forall e :: e in table ==> !table[e].status.Queued?
    {
      claimed := None;
      var rest := table.Keys;
      while rest != {}
        invariant rest <= table.Keys && table == old(table)
        invariant claimed.Some? ==> claimed.value in table && table[claimed.value].status.Queued?
        invariant forall e :: e in table && e !in rest && table[e].status.Queued? ==>
          claimed.Some? && table[claimed.value].created <= table[e].created
        decreases rest
      {
        var e :| e in rest;
        rest := rest - {e};
        if table[e].status.Queued? && (claimed.None? || table[e].created < table[claimed.value].created) {
          claimed := Some(e);
        }
      }
      if claimed.Some? {
        var record := table[claimed.value];
        table := table[claimed.value := record.(status := Sending, error := "", attempts := record.attempts + 1)];
      }
    }

    method FinishOutgoing(account: Id, id: Id, status: Status, error: string, stamped: string) returns (r: Outcome)
      modifies this
      ensures (table, r) == Finish(old(table), account, id, status, error, stamped)
    {
      if status != Failed && status != Unknown && status != Sent { return InvalidResult; }
      if id !in table || table[id].account != account { return NotFound; }
      var message := table[id].message;
      if status == Sent { message := stamped; }
      if table[id].status != Sending { return Refused; }
      table := table[id := table[id].(status := status, error := error, message := message)];
      return Done;
    }

    /** Looks for a copy of the message that the mirror already holds. */
    static method HasCopy(tencent: bool, copies: set<string>, messageId: string) returns (r: bool)
      ensures r <==> Mirrored(tencent, copies, messageId)
    {
      var rest := copies;
      while rest != {}
        invariant rest <= copies && forall m :: m in copies && m !in rest ==> !SqlMatch(tencent, m, messageId)
        decreases rest
      {
        var m :| m in rest;
        if SqlMatch(tencent, m, messageId) { return true; }
        rest := rest - {m};
      }
      return false;
    }

    method RetryOutgoing(account: Id, id: Id, tencent: bool, copies: set<string>) returns (r: Outcome)
      modifies this
      ensures (table, r) == Retry(old(table), account, id, tencent, copies)
    {
      if !Retriable(table, account, id) || !table[id].payload { return Refused; }
      var copied := HasCopy(tencent, copies, table[id].messageId);
      if copied { return Refused; }
      table := table[id := table[id].(status := Queued, error := "")];
      return Done;
    }

    method DeleteOutgoing(account: Id, id: Id) returns (r: Outcome)
      modifies this
      ensures (table, r) == Delete(old(table), account, id)
    {
      if id !in table || table[id].account != account || table[id].status == Sending { return Refused; }
      table := table - {id};
      return Done;
    }

    /** After a restart nothing is queued that was not queued before. */
    method RecoverOutgoing()
      modifies this
      ensures table == Recover(old(table))
      ensures forall id :: id in table ==>
        !table[id].status.Sending? && (InQueue(table, id) <==> InQueue(old(table), id))
    {
      table := map id | id in table :: if table[id].status == Sending then
        table[id].(status := Unknown, error := RESTARTED) else table[id];
    }
  }
}
