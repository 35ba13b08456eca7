/** The mirror's message writes as the store runs them; each batch is one transaction on a copy. */
module MessageStore {
  import opened Wrappers
  import opened Strings
  import opened MessageIndex
  import F = FlagModel
  import FlagStore
  import R = MessageRecords

  method HasRegularAttachment(list: Attachments) returns (r: bool)
    ensures r <==> HasRegular(list)
  {
    var i := 0;
    while i < |list|
      invariant 0 <= i <= |list| && forall j :: 0 <= j < i ==> list[j].inline
    {
      if !list[i].inline { return true; }
      i := i + 1;
    }
    return false;
  }

  class Store {
    var messages: map<Key, Row>
    var index: map<Key, map<string, Attachment>>

    ghost function View(): Mirror
      reads this
    {
      Mirror(messages, index)
    }

    constructor ()
      ensures View() == Mirror(map[], map[]) && IndexAgrees(View())
    {
      messages, index := map[], map[];
    }

    static method AttachmentKey(list: Attachments, i: nat) returns (key: string)
      requires i < |list|
      ensures key == KeyAt(list, i)
    {
      key := Trim(list[i].partId);
      if key == "" { key := Trim(list[i].id); }
      if key == "" { key := "index-" + Decimal(i); }
    }

    static predicate Distinct(keys: seq<string>) {
      forall a, b :: 0 <= a < b < |keys| ==> keys[a] != keys[b]
    }

    /** One insert per attachment; a repeated key violates the primary key. */
    static method InsertUnder(keys: seq<string>, list: Attachments) returns (rows: Option<map<string, Attachment>>)
      requires |keys| == |list|
      ensures rows.Some? <==> Distinct(keys)
      ensures rows.Some? ==> rows.value.Keys == set a | 0 <= a < |keys| :: keys[a]
      ensures rows.Some? ==> forall a :: 0 <= a < |keys| ==> rows.value[keys[a]] == list[a]
    {
      var inserted: map<string, Attachment> := map[];
      var i := 0;
      while i < |list|
        invariant 0 <= i <= |list|
        invariant forall a, b :: 0 <= a < b < i ==> keys[a] != keys[b]
        invariant inserted.Keys == set a | 0 <= a < i :: keys[a]
        invariant forall a :: 0 <= a < i ==> inserted[keys[a]] == list[a]
      {
        if keys[i] in inserted { return None; }
        inserted := inserted[keys[i] := list[i]];
        i := i + 1;
      }
      return Some(inserted);
    }

    static lemma RowsAreProjection(list: Attachments, keys: seq<string>)
      requires |keys| == |list| && forall a :: 0 <= a < |list| ==> keys[a] == KeyAt(list, a)
      ensures Distinct(keys) <==> DistinctKeys(list)
      ensures Distinct(keys) ==> Projection(list).Keys == set a | 0 <= a < |keys| :: keys[a]
      ensures Distinct(keys) ==> forall a :: 0 <= a < |keys| ==> Projection(list)[keys[a]] == list[a]
    {
      assert Distinct(keys) ==> DistinctKeys(list) by {
        if Distinct(keys) {
          forall a, b | 0 <= a < b < |list| ensures KeyAt(list, a) != KeyAt(list, b) {
            assert keys[a] == KeyAt(list, a) && keys[b] == KeyAt(list, b);
          }
        }
      }
      if DistinctKeys(list) {
        forall a, b | 0 <= a < b < |keys| ensures keys[a] != keys[b] {
          assert keys[a] == KeyAt(list, a) && keys[b] == KeyAt(list, b);
        }
      }
    }

    static method InsertRows(list: Attachments) returns (rows: Option<map<string, Attachment>>)
      ensures rows.Some? <==> DistinctKeys(list)
      ensures rows.Some? ==> rows.value == Projection(list)
    {
      var keys: seq<string> := [];
      while |keys| < |list|
        invariant |keys| <= |list|
        invariant forall a :: 0 <= a < |keys| ==> keys[a] == KeyAt(list, a)
      {
        var key := AttachmentKey(list, |keys|);
        keys := keys + [key];
      }
      rows := InsertUnder(keys, list);
      RowsAreProjection(list, keys);
      if rows.Some? { assert rows.value.Keys == Projection(list).Keys; }
    }

    /** replaceMessageAttachments: the old rows go, then the inserts, which also need the message. */
    static method ReplaceMessageAttachments(m: Mirror, k: Key, list: Attachments) returns (r: Option<Mirror>)
      ensures r == Reindex(m, k, list)
    {
      if list == [] { return Some(m.(index := m.index - {k})); }
      var rows := InsertRows(list);
      if rows.None? || k !in m.messages { return None; }
      return Some(m.(index := m.index[k := rows.value]));
    }

    /** The column values of a record, with a pending flag change laid over its flags. */
    static method Offer(email: Email, k: Key, pending: map<Key, F.Row>, mark: Marker) returns (x: Row)
      ensures x == Offered(email, F.Overlaid(pending, k, email.flags), mark)
    {
      var flags := email.flags;
      if k in pending {
        var changed;
        flags, changed := FlagStore.FlagsWithState(flags, F.SEEN, pending[k].add);
      }
      var list := mark(email.html, email.attachments);
      var regular := HasRegularAttachment(list);
      x := Row(email.head, email.thread, ExtrasText(email.extras), flags, email.body, email.html, list,
        email.hasAttachments || regular,
               email.bodyCached || email.body != "" || email.html != "", email.metadataCached || |list| > 0);
    }

    /** The loop body of upsertMessages for one record. */
    static method UpsertRecord(m: Mirror, folder: string, email: Email, pending: map<Key, F.Row>, moving: set<nat>,
                               mark: Marker)
      returns (r: Option<Mirror>)
      ensures r == UpsertOne(m, folder, email, pending, moving, mark)
    {
      var uid := ParseUid(email.id);
      if uid.None? || uid.value in moving { return Some(m); }
      var k := F.Key(folder, uid.value);
      var x := Offer(email, k, pending, mark);
      var n, touched := WriteRow(m, k, x);
      if x.metadataCached && touched {
        r := ReplaceMessageAttachments(n, k, x.attachments);
      } else {
        r := Some(n);
      }
    }

    /** INSERT ... ON CONFLICT DO UPDATE ... WHERE, and whether a row was affected. */
    static method WriteRow(m: Mirror, k: Key, x: Row) returns (n: Mirror, touched: bool)
      ensures touched <==> k !in m.messages || Changed(m.messages[k], x)
      ensures n == m.(messages := m.messages[k := if k in m.messages then Stored(m.messages[k], x) else x])
    {
      touched := k !in m.messages || Changed(m.messages[k], x);
      n := m;
      if k !in m.messages {
        n := m.(messages := m.messages[k := x]);
      } else if touched {
        n := m.(messages := m.messages[k := Merge(m.messages[k], x)]);
      } else {
        assert m.messages == m.messages[k := m.messages[k]];
      }
    }

    static lemma UpsertFrom(m: Mirror, folder: string, emails: seq<Email>, pending: map<Key, F.Row>, moving: set<nat>,
                            mark: Marker)
      requires emails != []
      ensures var next := UpsertOne(m, folder, emails[0], pending, moving, mark);
        UpsertAll(m, folder, emails, pending, moving, mark) ==
        if next.None? then None else UpsertAll(next.value, folder, emails[1..], pending, moving, mark)
    {}

    static method UpsertRecords(start: Mirror, folder: string, emails: seq<Email>, pending: map<Key, F.Row>,
                                moving: set<nat>, mark: Marker)
      returns (r: Option<Mirror>)
      ensures r == UpsertAll(start, folder, emails, pending, moving, mark)
    {
      var m := start;
      var i := 0;
      while i < |emails|
        invariant 0 <= i <= |emails|
        invariant UpsertAll(m, folder, emails[i..], pending, moving, mark) ==
          UpsertAll(start, folder, emails, pending, moving, mark)
      {
        UpsertFrom(m, folder, emails[i..], pending, moving, mark);
        assert emails[i..][1..] == emails[i + 1..];
        r := UpsertRecord(m, folder, emails[i], pending, moving, mark);
        if r.None? { return; }
        m := r.value;
        i := i + 1;
      }
      assert emails[i..] == [];
      return Some(m);
    }

    method UpsertMessages(folder: string, emails: seq<Email>, pending: map<Key, F.Row>, moving: set<nat>, mark: Marker)
      returns (ok: bool)
      modifies this
      ensures View() == Apply(old(View()), Upsert(folder, emails, pending, moving), mark)
      ensures ok <==> folder != "" && UpsertAll(old(View()), folder, emails, pending, moving, mark).Some?
      ensures !ok ==> View() == old(View())
      ensures ok ==> forall facts :: R.Matches(old(View()), facts) ==>
        R.Matches(View(), R.TellAll(facts, folder, emails, pending, moving, mark))
    {
      if folder == "" { return false; }
      var r := UpsertRecords(Mirror(messages, index), folder, emails, pending, moving, mark);
      ok := r.Some?;
      if ok {
        messages, index := r.value.messages, r.value.index;
        forall facts | R.Matches(old(View()), facts)
          ensures R.Matches(View(), R.TellAll(facts, folder, emails, pending, moving, mark))
        {
          R.BatchMatches(old(View()), facts, folder, emails, pending, moving, mark);
        }
      }
    }

    static method UpdateRecord(m: Mirror, folder: string, update: Update, mark: Marker) returns (r: Option<Mirror>)
      ensures r == UpdateOne(m, folder, update, mark)
    {
      var uid := ParseUid(update.uid);
      if uid.None? { return Some(m); }
      var k := F.Key(folder, uid.value);
      var html := if k in m.messages then m.messages[k].html else "";
      var list := mark(html, update.attachments);
      var regular := HasRegularAttachment(list);
      var n := m;
      if k in m.messages {
        n := m.(messages :=
          m.messages[k := m.messages[k].(attachments := list, hasAttachments := regular, metadataCached := true)]);
      }
      r := ReplaceMessageAttachments(n, k, list);
    }

    static method UpdateRecords(start: Mirror, folder: string, updates: seq<Update>, mark: Marker)
      returns (r: Option<Mirror>)
      ensures r == UpdateAll(start, folder, updates, mark)
    {
      var m := start;
      var i := 0;
      while i < |updates|
        invariant 0 <= i <= |updates|
        invariant UpdateAll(m, folder, updates[i..], mark) == UpdateAll(start, folder, updates, mark)
      {
        assert updates[i..][0] == updates[i] && updates[i..][1..] == updates[i + 1..];
        r := UpdateRecord(m, folder, updates[i], mark);
        if r.None? { return; }
        m := r.value;
        i := i + 1;
      }
      assert updates[i..] == [];
      return Some(m);
    }

    method BatchUpdateAttachmentMetadata(folder: string, updates: seq<Update>, mark: Marker) returns (ok: bool)
      modifies this
      ensures View() == Apply(old(View()), UpdateMetadata(folder, updates), mark)
      ensures ok <==> folder != "" && UpdateAll(old(View()), folder, updates, mark).Some?
    {
      if folder == "" { return false; }
      var r := UpdateRecords(Mirror(messages, index), folder, updates, mark);
      ok := r.Some?;
      if ok { messages, index := r.value.messages, r.value.index; }
    }

    /** Deleting messages takes their index rows with them. */
    method DeleteMessages(gone: set<Key>, ghost mark: Marker)
      modifies this
      ensures View() == Apply(old(View()), Remove(gone), mark)
    {
      messages, index := messages - gone, index - gone;
    }

    method ResetAttachmentMetadata(ghost mark: Marker)
      modifies this`messages
      ensures View() == Apply(old(View()), ResetMetadata, mark)
    {
      messages := map k | k in messages :: messages[k].(metadataCached := false);
    }
  }
}
