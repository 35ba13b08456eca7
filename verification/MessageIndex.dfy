/**
 The mirrored messages of one account and the attachment index derived from them:
 the guarded upsert, the attachment-only update, and the replacement of index rows.
 How inline attachments are recognized in the HTML is a parameter of every write.
 */
module MessageIndex {
  import opened Wrappers
  import opened Strings
  import F = FlagModel

  type Key = F.Key
  datatype Attachment = Attachment(id: string, partId: string, filename: string, contentType: string, size: int,
    inline: bool, contentId: string)
  type Attachments = seq<Attachment>
  type Marker = (string, Attachments) -> Attachments

  datatype Head = Head(date: int, from: string, fromName: string, to: string, toNames: seq<string>, cc: string,
    subject: string, preview: string)
  datatype Thread = Thread(messageId: string, inReplyTo: string, references: seq<string>)
  /** Stored JSON texts; empty only in rows that no upsert has written. */
  datatype Extras = Extras(auth: string, unsubscribe: string, invite: string, brand: string)

  /** The JSON values a record carries; a list fetch carries none. */
  datatype Carried = Carried(auth: Option<string>, unsubscribe: Option<string>, invite: Option<string>,
    brand: Option<string>)

  const NO_EXTRAS := Carried(None, None, None, None)

  datatype Row = Row(head: Head, thread: Thread, extras: Extras, flags: F.Flags, body: string, html: string,
                     attachments: Attachments, hasAttachments: bool, bodyCached: bool, metadataCached: bool)

  /** messages and message_attachments; a message without index rows has no entry. */
  datatype Mirror = Mirror(messages: map<Key, Row>, index: map<Key, map<string, Attachment>>)

  datatype Email = Email(id: string, head: Head, thread: Thread, extras: Carried, flags: F.Flags, body: string,
    html: string,
                         attachments: Attachments, hasAttachments: bool, bodyCached: bool, metadataCached: bool)

  // ------------------------------------------------------------------- index

  /** The trimmed part number, else the trimmed id, else the place in the list. */
  function KeyAt(list: Attachments, i: nat): string
    requires i < |list|
  {
    var part, id := Trim(list[i].partId), Trim(list[i].id);
    if part != "" then part else if id != "" then id else "index-" + Decimal(i)
  }

  predicate DistinctKeys(list: Attachments) {
    forall i, j :: 0 <= i < j < |list| ==> KeyAt(list, i) != KeyAt(list, j)
  }

  function Projection(list: Attachments): map<string, Attachment>
    requires DistinctKeys(list)
  {
    map i | 0 <= i < |list| :: KeyAt(list, i) := list[i]
  }

  /** Two attachments under one key violate the primary key; rows for an absent message violate the foreign key. */
  function Reindex(m: Mirror, k: Key, list: Attachments): Option<Mirror> {
    if list == [] then Some(m.(index := m.index - {k}))
    else if !DistinctKeys(list) || k !in m.messages then None
    else Some(m.(index := m.index[k := Projection(list)]))
  }

  // ------------------------------------------------------------------ upsert

  predicate HasRegular(list: Attachments) {
    exists i :: 0 <= i < |list| && !list[i].inline
  }

  /**
   optionalJSON meets a typed nil pointer, which is not the nil it tests for: an absent value
   becomes the text null.
   */
  function JsonText(value: Option<string>): string {
    if value.None? then "null" else value.value
  }

  function ExtrasText(c: Carried): Extras {
    Extras(JsonText(c.auth), JsonText(c.unsubscribe), JsonText(c.invite), JsonText(c.brand))
  }

  /** The values an upsert offers to the table. */
  function Offered(e: Email, flags: F.Flags, mark: Marker): Row {
    var list := mark(e.html, e.attachments);
    Row(e.head, e.thread, ExtrasText(e.extras), flags, e.body, e.html, list, e.hasAttachments || HasRegular(list),
        e.bodyCached || e.body != "" || e.html != "", e.metadataCached || list != [])
  }

  predicate Overrides(offered: string, stored: string) { offered != "" && offered != stored }

  /** The WHERE clause of the conflict branch. */
  predicate Changed(r: Row, x: Row) {
    || x.flags != r.flags
    || (x.bodyCached && (!r.bodyCached || x.body != r.body || x.html != r.html))
    || (x.metadataCached && (!r.metadataCached || x.attachments != r.attachments))
    || x.head != r.head
    || Overrides(x.extras.auth, r.extras.auth) || Overrides(x.extras.unsubscribe, r.extras.unsubscribe)
    || Overrides(x.extras.invite, r.extras.invite) || Overrides(x.extras.brand, r.extras.brand)
  }

  function Pick(offered: string, stored: string): string { if offered != "" then offered else stored }

  /** The SET list of the conflict branch. */
  function Merge(r: Row, x: Row): Row {
    Row(x.head, x.thread,
        Extras(Pick(x.extras.auth, r.extras.auth), Pick(x.extras.unsubscribe, r.extras.unsubscribe),
               Pick(x.extras.invite, r.extras.invite), Pick(x.extras.brand, r.extras.brand)),
        x.flags,
        if x.bodyCached then x.body else r.body, if x.bodyCached then x.html else r.html,
        if x.metadataCached then x.attachments else r.attachments,
        if x.metadataCached then x.hasAttachments else r.hasAttachments,
        r.bodyCached || x.bodyCached, r.metadataCached || x.metadataCached)
  }

  function Stored(r: Row, x: Row): Row { if Changed(r, x) then Merge(r, x) else r }

  function UpsertOne(m: Mirror, folder: string, e: Email, pending: map<Key, F.Row>, moving: set<nat>,
                     mark: Marker): Option<Mirror> {
    var uid := ParseUid(e.id);
    if uid.None? || uid.value in moving then Some(m)
    else
      var k := F.Key(folder, uid.value);
      var x := Offered(e, F.Overlaid(pending, k, e.flags), mark);
      var touched := k !in m.messages || Changed(m.messages[k], x);
      var row := if k in m.messages then Stored(m.messages[k], x) else x;
      var n := m.(messages := m.messages[k := row]);
      if x.metadataCached && touched then Reindex(n, k, x.attachments) else Some(n)
  }

  function UpsertAll(m: Mirror, folder: string, emails: seq<Email>, pending: map<Key, F.Row>, moving: set<nat>,
                     mark: Marker): Option<Mirror>
    decreases |emails|
  {
    if emails == [] then Some(m)
    else
      var n := UpsertOne(m, folder, emails[0], pending, moving, mark);
      if n.None? then None else UpsertAll(n.value, folder, emails[1..], pending, moving, mark)
  }

  datatype Update = Update(uid: string, attachments: Attachments)

  function UpdateOne(m: Mirror, folder: string, u: Update, mark: Marker): Option<Mirror> {
    var uid := ParseUid(u.uid);
    if uid.None? then Some(m)
    else
      var k := F.Key(folder, uid.value);
      var list := mark(if k in m.messages then m.messages[k].html else "", u.attachments);
      var n := if k !in m.messages then m
               else m.(messages :=
                 m.messages[k :=
                   m.messages[k].(attachments := list, hasAttachments := HasRegular(list), metadataCached := true)]);
      Reindex(n, k, list)
  }

  function UpdateAll(m: Mirror, folder: string, updates: seq<Update>, mark: Marker): Option<Mirror>
    decreases |updates|
  {
    if updates == [] then Some(m)
    else
      var n := UpdateOne(m, folder, updates[0], mark);
      if n.None? then None else UpdateAll(n.value, folder, updates[1..], mark)
  }

  // -------------------------------------------------------------------- runs

  datatype Step =
    | Upsert(folder: string, emails: seq<Email>, pending: map<Key, F.Row>, moving: set<nat>)
    | UpdateMetadata(folder: string, updates: seq<Update>)
    | Remove(gone: set<Key>)
    | ResetMetadata

  /** A failed batch is rolled back. */
  function Apply(m: Mirror, step: Step, mark: Marker): Mirror {
    match step
    case Upsert(folder, emails, pending, moving) =>
      var r := UpsertAll(m, folder, emails, pending, moving, mark);
      if folder == "" || r.None? then m else r.value
    case UpdateMetadata(folder, updates) =>
      var r := UpdateAll(m, folder, updates, mark);
      if folder == "" || r.None? then m else r.value
    case Remove(gone) => Mirror(m.messages - gone, m.index - gone)
    case ResetMetadata => m.(messages := map k | k in m.messages :: m.messages[k].(metadataCached := false))
  }

  function RunSteps(m: Mirror, steps: seq<Step>, mark: Marker): Mirror
    decreases |steps|
  {
    if steps == [] then m else RunSteps(Apply(m, steps[0], mark), steps[1..], mark)
  }

  /** The index rows of every message are the projection of its stored attachment list. */
  ghost predicate IndexAgrees(m: Mirror) {
    && m.index.Keys <= m.messages.Keys
    && forall k :: k in m.messages ==>
         DistinctKeys(m.messages[k].attachments) && IndexRows(m, k) == Projection(m.messages[k].attachments)
  }

  function IndexRows(m: Mirror, k: Key): map<string, Attachment> {
    if k in m.index then m.index[k] else map[]
  }

  lemma ReindexAgrees(m: Mirror, k: Key, list: Attachments)
    requires forall j :: j in m.messages && j != k ==>
      DistinctKeys(m.messages[j].attachments) && IndexRows(m, j) == Projection(m.messages[j].attachments)
    requires m.index.Keys <= m.messages.Keys && (k in m.messages ==> m.messages[k].attachments == list)
    ensures Reindex(m, k, list).Some? ==> IndexAgrees(Reindex(m, k, list).value)
  {
    if Reindex(m, k, list).Some? {
      var n := Reindex(m, k, list).value;
      forall j | j in n.messages
        ensures DistinctKeys(n.messages[j].attachments) && IndexRows(n, j) == Projection(n.messages[j].attachments)
      {
        if j != k { assert IndexRows(n, j) == IndexRows(m, j); }
      }
    }
  }

  /** A stored list that does not change, or a new message without attachments, needs no index rows. */
  lemma PutAgrees(m: Mirror, k: Key, row: Row)
    requires IndexAgrees(m)
    requires row.attachments == if k in m.messages then m.messages[k].attachments else []
    ensures IndexAgrees(m.(messages := m.messages[k := row]))
  {
    var n := m.(messages := m.messages[k := row]);
    forall j | j in n.messages
      ensures DistinctKeys(n.messages[j].attachments) && IndexRows(n, j) == Projection(n.messages[j].attachments)
    {
      assert IndexRows(n, j) == IndexRows(m, j);
    }
  }

  lemma PutAndReindexAgrees(m: Mirror, k: Key, row: Row)
    requires IndexAgrees(m)
    ensures var r := Reindex(m.(messages := m.messages[k := row]), k, row.attachments); r.Some? ==> IndexAgrees(r.value)
  {
    var n := m.(messages := m.messages[k := row]);
    assert forall j :: j in n.messages && j != k ==> j in m.messages && IndexRows(n, j) == IndexRows(m, j);
    ReindexAgrees(n, k, row.attachments);
  }

  lemma UpsertOneAgrees(m: Mirror, folder: string, e: Email, pending: map<Key, F.Row>, moving: set<nat>, mark: Marker)
    requires IndexAgrees(m)
    ensures var r := UpsertOne(m, folder, e, pending, moving, mark); r.Some? ==> IndexAgrees(r.value)
  {
    var uid := ParseUid(e.id);
    if uid.Some? && uid.value !in moving {
      var k := F.Key(folder, uid.value);
      var x := Offered(e, F.Overlaid(pending, k, e.flags), mark);
      var row := if k in m.messages then Stored(m.messages[k], x) else x;
      if x.metadataCached && (k !in m.messages || Changed(m.messages[k], x)) {
        PutAndReindexAgrees(m, k, row);
      } else {
        PutAgrees(m, k, row);
      }
    }
  }

  lemma UpdateOneAgrees(m: Mirror, folder: string, u: Update, mark: Marker)
    requires IndexAgrees(m)
    ensures var r := UpdateOne(m, folder, u, mark); r.Some? ==> IndexAgrees(r.value)
  {
    var uid := ParseUid(u.uid);
    if uid.Some? {
      var k := F.Key(folder, uid.value);
      var list := mark(if k in m.messages then m.messages[k].html else "", u.attachments);
      var n := if k !in m.messages then m
               else m.(messages :=
                 m.messages[k :=
                   m.messages[k].(attachments := list, hasAttachments := HasRegular(list), metadataCached := true)]);
      assert forall j :: j in n.messages && j != k ==> j in m.messages && IndexRows(n, j) == IndexRows(m, j);
      ReindexAgrees(n, k, list);
    }
  }

  lemma {:induction false} UpsertAgrees(m: Mirror, folder: string, emails: seq<Email>, pending: map<Key, F.Row>,
                                        moving: set<nat>, mark: Marker)
    requires IndexAgrees(m)
    ensures var r := UpsertAll(m, folder, emails, pending, moving, mark); r.Some? ==> IndexAgrees(r.value)
    decreases |emails|
  {
    if emails != [] {
      UpsertOneAgrees(m, folder, emails[0], pending, moving, mark);
      var n := UpsertOne(m, folder, emails[0], pending, moving, mark);
      if n.Some? { UpsertAgrees(n.value, folder, emails[1..], pending, moving, mark); }
    }
  }

  lemma {:induction false} UpdateAgrees(m: Mirror, folder: string, updates: seq<Update>, mark: Marker)
    requires IndexAgrees(m)
    ensures var r := UpdateAll(m, folder, updates, mark); r.Some? ==> IndexAgrees(r.value)
    decreases |updates|
  {
    if updates != [] {
      UpdateOneAgrees(m, folder, updates[0], mark);
      var n := UpdateOne(m, folder, updates[0], mark);
      if n.Some? { UpdateAgrees(n.value, folder, updates[1..], mark); }
    }
  }

  lemma StepAgrees(m: Mirror, step: Step, mark: Marker)
    requires IndexAgrees(m)
    ensures IndexAgrees(Apply(m, step, mark))
  {
    match step
    case Upsert(folder, emails, pending, moving) => UpsertAgrees(m, folder, emails, pending, moving, mark);
    case UpdateMetadata(folder, updates) => UpdateAgrees(m, folder, updates, mark);
    case Remove(gone) =>
      var n := Apply(m, step, mark);
      assert forall k :: k in n.messages ==> IndexRows(n, k) == IndexRows(m, k);
    case ResetMetadata =>
      var n := Apply(m, step, mark);
      assert forall k :: k in n.messages ==> IndexRows(n, k) == IndexRows(m, k);
  }

  /** Although skipped rows are not indexed again, the index equals its source after any run. */
  lemma {:induction false} IndexAgreesOverRuns(m: Mirror, steps: seq<Step>, mark: Marker)
    requires IndexAgrees(m)
    ensures IndexAgrees(RunSteps(m, steps, mark))
    decreases |steps|
  {
    if steps != [] {
      StepAgrees(m, steps[0], mark);
      IndexAgreesOverRuns(Apply(m, steps[0], mark), steps[1..], mark);
    }
  }

  // -------------------------------------------------------------- the guard

  /** What the guard skips would have changed nothing else than these two fields. */
  lemma GuardIsHarmless(r: Row, x: Row)
    ensures Stored(r, x).(thread := x.thread, hasAttachments := Merge(r, x).hasAttachments) == Merge(r, x)
    ensures Stored(r, x) == Merge(r, x) <==>
      Changed(r, x) || (x.thread == r.thread && (x.metadataCached ==> x.hasAttachments == r.hasAttachments))
  {
    if !Changed(r, x) {
      assert Merge(r, x).extras == r.extras;
    }
  }

  const KEPT := Attachment("a", "1", "offer.pdf", "application/pdf", 7, false, "")
  const KEPT_HEAD := Head(1, "a@b", "", "c@d", [], "", "offer", "")

  /** A fully fetched message whose attachment marker an earlier refresh had reset. */
  function OlderRow(): Row {
    Row(KEPT_HEAD, Thread("<m>", "", []), ExtrasText(NO_EXTRAS), [], "text", "", [KEPT], false, true, true)
  }

  /**
   The same message fetched in full again, with any thread headers: the marker it offers is
   right, but the mirror stays as it is, marker and thread headers included.
   */
  lemma StaleRowExample(id: string, thread: Thread, mark: Marker)
    requires ParseUid(id) == Some(1) && mark("", [KEPT]) == [KEPT]
    ensures var e := Email(id, KEPT_HEAD, thread, NO_EXTRAS, [], "text", "", [KEPT], true, true, true);
      var k := F.Key("INBOX", 1);
      var m := Mirror(map[k := OlderRow()], map[k := map["1" := KEPT]]);
      && UpsertOne(m, "INBOX", e, map[], {}, mark) == Some(m)
      && Offered(e, [], mark).hasAttachments && !m.messages[k].hasAttachments && Offered(e, [], mark).thread == thread
  {
    var e := Email(id, KEPT_HEAD, thread, NO_EXTRAS, [], "text", "", [KEPT], true, true, true);
    var k := F.Key("INBOX", 1);
    var m := Mirror(map[k := OlderRow()], map[k := map["1" := KEPT]]);
    var x := Offered(e, [], mark);
    assert x == OlderRow().(thread := thread, hasAttachments := true);
    assert !Changed(OlderRow(), x);
    assert m.messages == m.messages[k := OlderRow()];
  }

  // -------------------------------------------------------------- the extras

  /** The text an upsert leaves of a stored one: the record's, which is not empty since even an absent value is null. */
  predicate Follows(after: string, before: string, carried: Option<string>) {
    && after == (if JsonText(carried) != "" then JsonText(carried) else before)
    && (after == before <==> JsonText(carried) == "" || JsonText(carried) == before)
    && (carried.None? ==> after == "null")
  }

  /** Each of the four survives an upsert exactly when the record carries that very text. */
  lemma ExtrasFollowTheRecord(r: Row, e: Email, flags: F.Flags, mark: Marker)
    ensures var q := Stored(r, Offered(e, flags, mark)).extras;
      && Follows(q.auth, r.extras.auth, e.extras.auth)
      && Follows(q.unsubscribe, r.extras.unsubscribe, e.extras.unsubscribe)
      && Follows(q.invite, r.extras.invite, e.extras.invite) && Follows(q.brand, r.extras.brand, e.extras.brand)
  {
    GuardIsHarmless(r, Offered(e, flags, mark));
  }

  /** So a list fetch overwrites all four with null, whatever was stored. */
  lemma HeadersForgetExtras(m: Mirror, folder: string, e: Email, pending: map<Key, F.Row>, moving: set<nat>,
                            mark: Marker, uid: nat)
    requires HeaderOnly(e) && e.extras == NO_EXTRAS && mark("", []) == []
    requires ParseUid(e.id) == Some(uid) && uid !in moving
    ensures var n := UpsertOne(m, folder, e, pending, moving, mark);
      n.Some? && F.Key(folder, uid) in n.value.messages
      && n.value.messages[F.Key(folder, uid)].extras == Extras("null", "null", "null", "null")
  {
    var k := F.Key(folder, uid);
    var x := Offered(e, F.Overlaid(pending, k, e.flags), mark);
    assert x.extras == Extras("null", "null", "null", "null");
    if k in m.messages { GuardIsHarmless(m.messages[k], x); }
  }

  /** Neither a cached body nor cached attachments are ever forgotten by an upsert. */
  ghost predicate NothingForgotten(m: Mirror, n: Mirror) {
    && m.messages.Keys <= n.messages.Keys
    && (forall k :: k in m.messages && m.messages[k].bodyCached ==> n.messages[k].bodyCached)
    && (forall k :: k in m.messages && m.messages[k].metadataCached ==> n.messages[k].metadataCached)
  }

  /** What one record of a batch does to the rows, when the batch is not rolled back. */
  lemma UpsertOneKeeps(m: Mirror, folder: string, e: Email, pending: map<Key, F.Row>, moving: set<nat>, mark: Marker)
    requires UpsertOne(m, folder, e, pending, moving, mark).Some?
    ensures var n := UpsertOne(m, folder, e, pending, moving, mark).value;
      NothingForgotten(m, n) && (HeaderOnly(e) && mark("", []) == [] ==> SameContents(m, n))
  {}

  lemma {:induction false} UpsertForgetsNothing(m: Mirror, folder: string, emails: seq<Email>,
                                                pending: map<Key, F.Row>, moving: set<nat>, mark: Marker)
    ensures NothingForgotten(m, Apply(m, Upsert(folder, emails, pending, moving), mark))
    decreases |emails|
  {
    if emails != [] {
      var n := UpsertOne(m, folder, emails[0], pending, moving, mark);
      if n.Some? {
        UpsertOneKeeps(m, folder, emails[0], pending, moving, mark);
        UpsertForgetsNothing(n.value, folder, emails[1..], pending, moving, mark);
      }
    }
  }

  predicate HeaderOnly(e: Email) {
    e.body == "" && e.html == "" && !e.bodyCached && e.attachments == [] && !e.metadataCached
  }

  predicate SameContent(r: Row, q: Row) {
    q.body == r.body && q.html == r.html && q.attachments == r.attachments && q.hasAttachments == r.hasAttachments
  }

  /** The parts of the mirror a lightweight list fetch cannot know. */
  ghost predicate SameContents(m: Mirror, n: Mirror) {
    && m.index == n.index && m.messages.Keys <= n.messages.Keys
    && forall k :: k in m.messages ==> SameContent(m.messages[k], n.messages[k])
  }

  /** A list fetch changes no stored body, HTML or attachment list, nor the index. */
  lemma {:induction false} HeadersKeepContents(m: Mirror, folder: string, emails: seq<Email>, pending: map<Key, F.Row>,
                                               moving: set<nat>, mark: Marker)
    requires forall e :: e in emails ==> HeaderOnly(e)
    requires mark("", []) == []
    ensures SameContents(m, Apply(m, Upsert(folder, emails, pending, moving), mark))
    decreases |emails|
  {
    if emails != [] {
      assert HeaderOnly(emails[0]);
      var n := UpsertOne(m, folder, emails[0], pending, moving, mark);
      if n.Some? {
        UpsertOneKeeps(m, folder, emails[0], pending, moving, mark);
        HeadersKeepContents(n.value, folder, emails[1..], pending, moving, mark);
      }
    }
  }
}
