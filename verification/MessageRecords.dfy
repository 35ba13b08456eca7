/**
 What the mirror holds of each message, told without the guarded upsert: the fetched records and
 attachment updates, read one after the other.
 */
module MessageRecords {
  import opened Wrappers
  import opened Strings
  import opened MessageIndex
  import F = FlagModel

  /** The last headers and flags, the last content and the last attachment list that arrived for a message. */
  datatype Fact = Fact(head: Head, flags: F.Flags, content: Option<(string, string)>, list: Option<Attachments>)
  type Facts = map<Key, Fact>

  predicate CarriesBody(e: Email) { e.bodyCached || e.body != "" || e.html != "" }

  predicate CarriesList(e: Email, mark: Marker) { e.metadataCached || mark(e.html, e.attachments) != [] }

  predicate SomeRegular(list: Attachments) { exists a :: a in list && !a.inline }

  /** The record's flags under our own pending change, if there is one. */
  function FlagsOf(pending: map<Key, F.Row>, k: Key, e: Email): F.Flags {
    if k in pending then F.WithState(e.flags, F.SEEN, pending[k].add) else e.flags
  }

  function Next(before: Option<Fact>, e: Email, flags: F.Flags, mark: Marker): Fact {
    var old_ := if before.Some? then before.value else Fact(e.head, flags, None, None);
    Fact(e.head, flags,
         if CarriesBody(e) then Some((e.body, e.html)) else old_.content,
         if CarriesList(e, mark) then Some(mark(e.html, e.attachments)) else old_.list)
  }

  function Told(facts: Facts, folder: string, e: Email, pending: map<Key, F.Row>, moving: set<nat>, mark: Marker)
    : Facts {
    var uid := ParseUid(e.id);
    if uid.None? || uid.value in moving then facts
    else
      var k := F.Key(folder, uid.value);
      facts[k := Next(if k in facts then Some(facts[k]) else None, e, FlagsOf(pending, k, e), mark)]
  }

  function TellAll(facts: Facts, folder: string, emails: seq<Email>, pending: map<Key, F.Row>, moving: set<nat>,
                   mark: Marker): Facts
    decreases |emails|
  {
    if emails == [] then facts
    else TellAll(Told(facts, folder, emails[0], pending, moving, mark), folder, emails[1..], pending, moving, mark)
  }

  /** An attachment update lists the attachments of a message that is there, marked by its HTML. */
  function Listed(facts: Facts, folder: string, u: Update, mark: Marker): Facts {
    var uid := ParseUid(u.uid);
    if uid.None? || F.Key(folder, uid.value) !in facts then facts
    else
      var k := F.Key(folder, uid.value);
      var html := if facts[k].content.Some? then facts[k].content.value.1 else "";
      facts[k := facts[k].(list := Some(mark(html, u.attachments)))]
  }

  function ListAll(facts: Facts, folder: string, updates: seq<Update>, mark: Marker): Facts
    decreases |updates|
  {
    if updates == [] then facts
    else ListAll(Listed(facts, folder, updates[0], mark), folder, updates[1..], mark)
  }

  function After(m: Mirror, facts: Facts, step: Step, mark: Marker): Facts {
    match step
    case Upsert(folder, emails, pending, moving) =>
      if folder == "" || UpsertAll(m, folder, emails, pending, moving, mark).None? then facts
      else TellAll(facts, folder, emails, pending, moving, mark)
    case UpdateMetadata(folder, updates) =>
      if folder == "" || UpdateAll(m, folder, updates, mark).None? then facts
      else ListAll(facts, folder, updates, mark)
    case Remove(gone) => facts - gone
    case ResetMetadata => facts
  }

  function AfterAll(m: Mirror, facts: Facts, steps: seq<Step>, mark: Marker): Facts
    decreases |steps|
  {
    if steps == [] then facts
    else AfterAll(Apply(m, steps[0], mark), After(m, facts, steps[0], mark), steps[1..], mark)
  }

  predicate Shows(r: Row, f: Fact) {
    && r.head == f.head && r.flags == f.flags
    && (r.body, r.html) == (if f.content.Some? then f.content.value else ("", "")) && r.bodyCached == f.content.Some?
    && r.attachments == (if f.list.Some? then f.list.value else []) && (r.metadataCached ==> f.list.Some?)
  }

  ghost predicate Matches(m: Mirror, facts: Facts) {
    m.messages.Keys == facts.Keys && forall k :: k in m.messages ==> Shows(m.messages[k], facts[k])
  }

  // ---------------------------------------------------------------- one record

  ghost predicate OthersKept(m: Mirror, n: Mirror, k: Key) {
    && n.messages.Keys == m.messages.Keys + {k}
    && forall j :: j in m.messages && j != k ==> n.messages[j] == m.messages[j]
  }

  lemma RegularIsSome(list: Attachments)
    ensures HasRegular(list) <==> SomeRegular(list)
  {
    if HasRegular(list) {
      var i :| 0 <= i < |list| && !list[i].inline;
      assert list[i] in list;
    }
  }

  /** One row under a record, the guard included. */
  lemma RowFollows(r: Row, e: Email, flags: F.Flags, mark: Marker)
    ensures var row := Stored(r, Offered(e, flags, mark));
      && row.head == e.head && row.flags == flags
      && (CarriesBody(e) ==> row.bodyCached && row.body == e.body && row.html == e.html)
      && (CarriesList(e, mark) ==> row.metadataCached && row.attachments == mark(e.html, e.attachments))
      && (!CarriesBody(e) ==> row.bodyCached == r.bodyCached && row.body == r.body && row.html == r.html)
      && (!CarriesList(e, mark) ==> row.metadataCached == r.metadataCached && row.attachments == r.attachments
                                    && row.hasAttachments == r.hasAttachments)
  {}

  lemma RowThread(r: Row, e: Email, flags: F.Flags, mark: Marker)
    ensures var row := Stored(r, Offered(e, flags, mark));
      if row.(thread := r.thread, hasAttachments := r.hasAttachments) == r then row == r
      else
        && row.thread == e.thread
        && (CarriesList(e, mark) ==>
              row.hasAttachments == (e.hasAttachments || SomeRegular(mark(e.html, e.attachments))))
  {
    RegularIsSome(mark(e.html, e.attachments));
  }

  /** Where a record goes. */
  lemma UpsertTarget(m: Mirror, folder: string, e: Email, pending: map<Key, F.Row>, moving: set<nat>, mark: Marker,
                     uid: nat)
    requires ParseUid(e.id) == Some(uid) && uid !in moving
    ensures var k := F.Key(folder, uid);
      var r := UpsertOne(m, folder, e, pending, moving, mark);
      var x := Offered(e, FlagsOf(pending, k, e), mark);
      && (r.None? ==> CarriesList(e, mark) && !DistinctKeys(mark(e.html, e.attachments)))
      && (r.Some? ==>
            r.value.messages == m.messages[k := if k in m.messages then Stored(m.messages[k], x) else x])
  {}

  /**
   A record of a valid number that is not on its way out is stored, as far as it goes: its headers
   and flags always, its content and its attachment list if it carries them; the rest of the row and
   the other rows stay. Only two attachments under one key can undo it.
   */
  lemma RecordIsStored(m: Mirror, folder: string, e: Email, pending: map<Key, F.Row>, moving: set<nat>, mark: Marker,
                       uid: nat)
    requires ParseUid(e.id) == Some(uid) && uid !in moving
    ensures var k := F.Key(folder, uid);
      var r := UpsertOne(m, folder, e, pending, moving, mark);
      var list := mark(e.html, e.attachments);
      && (r.None? ==> CarriesList(e, mark) && !DistinctKeys(list))
      && (r.Some? ==>
            && OthersKept(m, r.value, k)
            && var row := r.value.messages[k];
            && row.head == e.head && row.flags == FlagsOf(pending, k, e)
            && (CarriesBody(e) ==> row.bodyCached && row.body == e.body && row.html == e.html)
            && (CarriesList(e, mark) ==> row.metadataCached && row.attachments == list)
            && (!CarriesBody(e) && k in m.messages ==>
                  row.bodyCached == m.messages[k].bodyCached && row.body == m.messages[k].body
                  && row.html == m.messages[k].html)
            && (!CarriesList(e, mark) && k in m.messages ==>
                  row.metadataCached == m.messages[k].metadataCached && row.attachments == m.messages[k].attachments
                  && row.hasAttachments == m.messages[k].hasAttachments))
  {
    var k := F.Key(folder, uid);
    UpsertTarget(m, folder, e, pending, moving, mark, uid);
    if k in m.messages { RowFollows(m.messages[k], e, FlagsOf(pending, k, e), mark); }
  }

  /** A message that was not there gets every column from its record. */
  lemma NewMessageIsStored(m: Mirror, folder: string, e: Email, pending: map<Key, F.Row>, moving: set<nat>,
                           mark: Marker, uid: nat)
    requires ParseUid(e.id) == Some(uid) && uid !in moving && F.Key(folder, uid) !in m.messages
    requires UpsertOne(m, folder, e, pending, moving, mark).Some?
    ensures var row := UpsertOne(m, folder, e, pending, moving, mark).value.messages[F.Key(folder, uid)];
      && row.thread == e.thread && row.body == e.body && row.html == e.html
      && row.attachments == mark(e.html, e.attachments)
      && row.hasAttachments == (e.hasAttachments || SomeRegular(mark(e.html, e.attachments)))
      && row.bodyCached == CarriesBody(e) && row.metadataCached == CarriesList(e, mark)
  {
    RegularIsSome(mark(e.html, e.attachments));
  }

  /**
   The thread headers and the attachment marker of a message that was there follow the record exactly
   when another column changes too; otherwise the row stays as it is.
   */
  lemma ThreadNeedsAnotherChange(m: Mirror, folder: string, e: Email, pending: map<Key, F.Row>, moving: set<nat>,
                                 mark: Marker, uid: nat)
    requires ParseUid(e.id) == Some(uid) && uid !in moving && F.Key(folder, uid) in m.messages
    requires UpsertOne(m, folder, e, pending, moving, mark).Some?
    ensures var k := F.Key(folder, uid);
      var old_ := m.messages[k];
      var row := UpsertOne(m, folder, e, pending, moving, mark).value.messages[k];
      if row.(thread := old_.thread, hasAttachments := old_.hasAttachments) == old_ then row == old_
      else
        && row.thread == e.thread
        && (CarriesList(e, mark) ==>
              row.hasAttachments == (e.hasAttachments || SomeRegular(mark(e.html, e.attachments))))
  {
    var k := F.Key(folder, uid);
    UpsertTarget(m, folder, e, pending, moving, mark, uid);
    RowThread(m.messages[k], e, FlagsOf(pending, k, e), mark);
  }

  /** An attachment update stores the marked list and its marker, and touches nothing else of the messages. */
  lemma UpdateIsStored(m: Mirror, folder: string, u: Update, mark: Marker, uid: nat)
    requires ParseUid(u.uid) == Some(uid) && F.Key(folder, uid) in m.messages
    ensures var k := F.Key(folder, uid);
      var r := UpdateOne(m, folder, u, mark);
      var list := mark(m.messages[k].html, u.attachments);
      && (r.None? <==> list != [] && !DistinctKeys(list))
      && (r.Some? ==>
            r.value.messages == m.messages[k := m.messages[k].(attachments := list,
              hasAttachments := SomeRegular(list), metadataCached := true)])
  {
    RegularIsSome(mark(m.messages[F.Key(folder, uid)].html, u.attachments));
  }

  /** Every attachment of a stored message is found in the index under its part number, its id, or its place. */
  lemma AttachmentIsIndexed(m: Mirror, k: Key, i: nat)
    requires IndexAgrees(m) && k in m.messages && i < |m.messages[k].attachments|
    ensures var a := m.messages[k].attachments[i];
      var key := if Trim(a.partId) != "" then Trim(a.partId) else if Trim(a.id) != "" then Trim(a.id)
                 else "index-" + Decimal(i);
      k in m.index && key in m.index[k] && m.index[k][key] == a
  {
    var list := m.messages[k].attachments;
    assert KeyAt(list, i) in Projection(list);
  }

  // ---------------------------------------------------------------------- runs

  lemma RowShows(r: Option<Row>, before: Option<Fact>, e: Email, flags: F.Flags, mark: Marker)
    requires r.Some? == before.Some? && (r.Some? ==> Shows(r.value, before.value))
    ensures var x := Offered(e, flags, mark);
      Shows(if r.Some? then Stored(r.value, x) else x, Next(before, e, flags, mark))
  {
    if r.Some? { RowFollows(r.value, e, flags, mark); }
  }

  lemma OneMatches(m: Mirror, facts: Facts, folder: string, e: Email, pending: map<Key, F.Row>, moving: set<nat>,
                   mark: Marker)
    requires Matches(m, facts) && UpsertOne(m, folder, e, pending, moving, mark).Some?
    ensures Matches(UpsertOne(m, folder, e, pending, moving, mark).value, Told(facts, folder, e, pending, moving, mark))
  {
    var uid := ParseUid(e.id);
    if uid.Some? && uid.value !in moving {
      var k := F.Key(folder, uid.value);
      UpsertTarget(m, folder, e, pending, moving, mark, uid.value);
      RowShows(if k in m.messages then Some(m.messages[k]) else None, if k in facts then Some(facts[k]) else None, e,
        FlagsOf(pending, k, e), mark);
    }
  }

  lemma {:induction false} BatchMatches(m: Mirror, facts: Facts, folder: string, emails: seq<Email>,
                                        pending: map<Key, F.Row>, moving: set<nat>, mark: Marker)
    requires Matches(m, facts) && UpsertAll(m, folder, emails, pending, moving, mark).Some?
    ensures Matches(UpsertAll(m, folder, emails, pending, moving, mark).value,
                    TellAll(facts, folder, emails, pending, moving, mark))
    decreases |emails|
  {
    if emails != [] {
      OneMatches(m, facts, folder, emails[0], pending, moving, mark);
      BatchMatches(UpsertOne(m, folder, emails[0], pending, moving, mark).value,
        Told(facts, folder, emails[0], pending, moving, mark), folder, emails[1..], pending, moving, mark);
    }
  }

  lemma {:induction false} UpdatesMatch(m: Mirror, facts: Facts, folder: string, updates: seq<Update>, mark: Marker)
    requires Matches(m, facts) && UpdateAll(m, folder, updates, mark).Some?
    ensures Matches(UpdateAll(m, folder, updates, mark).value, ListAll(facts, folder, updates, mark))
    decreases |updates|
  {
    if updates != [] {
      var uid := ParseUid(updates[0].uid);
      if uid.Some? && F.Key(folder, uid.value) in m.messages {
        UpdateIsStored(m, folder, updates[0], mark, uid.value);
        assert Shows(m.messages[F.Key(folder, uid.value)], facts[F.Key(folder, uid.value)]);
      }
      UpdatesMatch(UpdateOne(m, folder, updates[0], mark).value, Listed(facts, folder, updates[0], mark), folder,
        updates[1..], mark);
    }
  }

  /**
   Over every run of full and header-only fetches, attachment updates, deletions and resets, with
   failed batches rolled back: each row shows its message's last headers and flags, the content of
   the last record that carried one, and the last list that arrived, whatever the guard skipped.
   */
  lemma {:induction false} MirrorShowsTheLastRecords(m: Mirror, facts: Facts, steps: seq<Step>, mark: Marker)
    requires Matches(m, facts)
    ensures Matches(RunSteps(m, steps, mark), AfterAll(m, facts, steps, mark))
    decreases |steps|
  {
    if steps != [] {
      var step := steps[0];
      match step {
        case Upsert(folder, emails, pending, moving) =>
          if UpsertAll(m, folder, emails, pending, moving, mark).Some? {
            BatchMatches(m, facts, folder, emails, pending, moving, mark);
          }
        case UpdateMetadata(folder, updates) =>
          if UpdateAll(m, folder, updates, mark).Some? { UpdatesMatch(m, facts, folder, updates, mark); }
        case _ =>
      }
      MirrorShowsTheLastRecords(Apply(m, step, mark), After(m, facts, step, mark), steps[1..], mark);
    }
  }
}
