/** The three paginated readers: mail search, the session list, and the messages of a session. */
module Pagination {
  import opened Wrappers
  import opened Strings
  import opened Keyset

  // -------------------------------------------------------------- mail search

  datatype MailKey = MailKey(date: int, folder: string, uid: nat)

  /** Newest first, then by folder, then the highest number first. */
  predicate MailBefore(a: MailKey, b: MailKey) {
    || a.date > b.date
    || (a.date == b.date && (TextLess(a.folder, b.folder) || (a.folder == b.folder && a.uid > b.uid)))
  }

  lemma MailOrderTransitive(a: MailKey, b: MailKey, c: MailKey)
    requires MailBefore(a, b) && MailBefore(b, c)
    ensures MailBefore(a, c)
  {
    if TextLess(a.folder, b.folder) && TextLess(b.folder, c.folder) {
      TextLessTransitive(a.folder, b.folder, c.folder);
    }
  }

  lemma MailOrder()
    ensures StrictTotal(MailBefore)
  {
    forall a, b, c | MailBefore(a, b) && MailBefore(b, c) ensures MailBefore(a, c) {
      MailOrderTransitive(a, b, c);
    }
    forall a, b ensures MailBefore(a, b) || MailBefore(b, a) || a == b {
      TextLessTotal(a.folder, b.folder);
    }
    forall a ensures !MailBefore(a, a) {
      TextLessTotal(a.folder, a.folder);
    }
  }

  /** What the caller passes as cursor: none, text that does not decode, or a decoded boundary. */
  datatype SearchCursor = First | Garbled | At(fingerprint: string, key: MailKey)
  datatype SearchPage = RefusedCursor | Found(items: seq<MailKey>, next: SearchCursor)

  function SearchLimit(limit: int): nat { if limit <= 0 || limit > 20 then 10 else limit }

  predicate Accepts(fingerprint: string, cursor: SearchCursor) {
    !cursor.Garbled?
      && (cursor.At? ==> cursor.fingerprint == fingerprint && cursor.key.uid > 0 && cursor.key.folder != "")
  }

  function Boundary(cursor: SearchCursor): Option<MailKey> { if cursor.At? then Some(cursor.key) else None }

  /** The fingerprint stands for account, scope, query and anchor; matches are the rows they select. */
  method SearchMessagePage(matches: set<MailKey>, fingerprint: string, cursor: SearchCursor, limit: int)
    returns (r: SearchPage)
    ensures r.Found? <==> Accepts(fingerprint, cursor)
    ensures r.Found? ==> IsPage(MailBefore, matches, Boundary(cursor), SearchLimit(limit), Page(r.items, r.next.At?))
    ensures r.Found? ==> r.next == if r.next.At? then At(fingerprint, r.items[SearchLimit(limit) - 1]) else First
  {
    var size := limit;
    if size <= 0 || size > 20 { size := 10; }
    var after := None;
    if cursor != First {
      if cursor.Garbled? || cursor.fingerprint != fingerprint || cursor.key.uid == 0 || cursor.key.folder == "" {
        return RefusedCursor;
      }
      after := Some(cursor.key);
    }
    MailOrder();
    var p := ReadPage(MailBefore, matches, after, size);
    return Found(p.items, if p.more then At(fingerprint, p.items[size - 1]) else First);
  }

  /** Stored messages have a folder and a positive number, so a returned cursor is accepted by the next call. */
  predicate Stored(matches: set<MailKey>) {
    forall k :: k in matches ==> k.uid > 0 && k.folder != ""
  }

  /** Following NextCursor to the end over an unchanged mailbox ends, and returns the sorted matches. */
  method FollowSearch(matches: set<MailKey>, fingerprint: string, limit: int)
    returns (all: seq<MailKey>, ghost tables: seq<set<MailKey>>, ghost pages: seq<Page<MailKey>>)
    requires Stored(matches)
    ensures all == Flat(pages) && Walk(MailBefore, tables, None, SearchLimit(limit), pages)
    ensures Listing(MailBefore, matches, all)
  {
    all, tables, pages := FollowFrom(matches, fingerprint, First, limit);
    MailOrder();
    FixedTableIsListed(MailBefore, tables, None, SearchLimit(limit), pages, matches);
    assert Beyond(MailBefore, matches, None) == matches;
  }

  method FollowFrom(matches: set<MailKey>, fingerprint: string, cursor: SearchCursor, limit: int)
    returns (all: seq<MailKey>, ghost tables: seq<set<MailKey>>, ghost pages: seq<Page<MailKey>>)
    requires Stored(matches) && Accepts(fingerprint, cursor)
    ensures all == Flat(pages) && Walk(MailBefore, tables, Boundary(cursor), SearchLimit(limit), pages)
    ensures forall i :: 0 <= i < |tables| ==> tables[i] == matches
    decreases Beyond(MailBefore, matches, Boundary(cursor))
  {
    var r := SearchMessagePage(matches, fingerprint, cursor, limit);
    ghost var page := Page(r.items, r.next.At?);
    if r.next.First? {
      all, tables, pages := r.items, [matches], [page];
      assert pages[1..] == [];
      return;
    }
    var last := r.items[SearchLimit(limit) - 1];
    assert last in r.items;
    MailOrder();
    CursorAdvances(MailBefore, matches, Boundary(cursor), last);
    var rest;
    ghost var later, others;
    rest, later, others := FollowFrom(matches, fingerprint, r.next, limit);
    all, tables, pages := r.items + rest, [matches] + later, [page] + others;
    assert pages[1..] == others && tables[1..] == later;
  }

  /** New mail that arrives while the pages are read is not returned, and costs no older match. */
  lemma NewMailDoesNotDisturb(tables: seq<set<MailKey>>, limit: int, pages: seq<Page<MailKey>>)
    requires Walk(MailBefore, tables, None, SearchLimit(limit), pages)
    requires forall i, k :: 0 <= i < |tables| && k in tables[0] ==> k in tables[i]
    requires forall i, k, m :: 0 <= i < |tables| && k in tables[i] && k !in tables[0] && m in tables[0] ==>
      k.date > m.date
    ensures Listing(MailBefore, tables[0], Flat(pages))
  {
    MailOrder();
    NewerRowsDoNotDisturb(MailBefore, tables, SearchLimit(limit), pages);
  }

  // ------------------------------------------------------------- session list

  datatype SessionKey = SessionKey(updated: int, id: string)

  /** Last updated first, equal times by id. */
  predicate SessionBefore(a: SessionKey, b: SessionKey) {
    a.updated > b.updated || (a.updated == b.updated && TextLess(a.id, b.id))
  }

  lemma SessionOrder()
    ensures StrictTotal(SessionBefore)
  {
    forall a, b, c | SessionBefore(a, b) && SessionBefore(b, c) ensures SessionBefore(a, c) {
      if TextLess(a.id, b.id) && TextLess(b.id, c.id) { TextLessTransitive(a.id, b.id, c.id); }
    }
    forall a, b ensures SessionBefore(a, b) || SessionBefore(b, a) || a == b {
      TextLessTotal(a.id, b.id);
    }
    forall a ensures !SessionBefore(a, a) {
      TextLessTotal(a.id, a.id);
    }
  }

  datatype SessionCursor = FirstSessions | GarbledSessions | AfterSession(key: SessionKey)
  datatype SessionPage = RefusedSessions | Sessions(items: seq<SessionKey>, next: SessionCursor)

  function SessionLimit(limit: int): nat { if limit < 1 || limit > 100 then 30 else limit }

  predicate AcceptsSession(cursor: SessionCursor) {
    !cursor.GarbledSessions? && (cursor.AfterSession? ==> cursor.key.id != "")
  }

  function SessionBoundary(cursor: SessionCursor): Option<SessionKey> {
    if cursor.AfterSession? then Some(cursor.key) else None
  }

  /** The reader takes one row too many; meeting it, it stops and hands out the last kept row as cursor. */
  method ListAIChatSessionPage(rows: set<SessionKey>, limit: int, cursor: SessionCursor) returns (r: SessionPage)
    ensures r.Sessions? <==> AcceptsSession(cursor)
    ensures r.Sessions? ==>
      IsPage(SessionBefore, rows, SessionBoundary(cursor), SessionLimit(limit), Page(r.items, r.next.AfterSession?))
    ensures r.Sessions? ==> r.next == if r.next.AfterSession? then AfterSession(r.items[SessionLimit(limit) - 1])
      else FirstSessions
  {
    var size := limit;
    if size < 1 || size > 100 { size := 30; }
    if cursor.GarbledSessions? || (cursor.AfterSession? && cursor.key.id == "") { return RefusedSessions; }
    SessionOrder();
    var p := ReadPage(SessionBefore, rows, SessionBoundary(cursor), size);
    return Sessions(p.items, if p.more then AfterSession(p.items[size - 1]) else FirstSessions);
  }

  /** Session ids are not empty, so a returned cursor is accepted by the next call. */
  predicate Named(rows: set<SessionKey>) {
    forall k :: k in rows ==> k.id != ""
  }

  /** Following the cursor to the end over an unchanged list ends, and returns all sessions in order. */
  method FollowSessions(rows: set<SessionKey>, limit: int)
    returns (all: seq<SessionKey>, ghost tables: seq<set<SessionKey>>, ghost pages: seq<Page<SessionKey>>)
    requires Named(rows)
    ensures all == Flat(pages) && Walk(SessionBefore, tables, None, SessionLimit(limit), pages)
    ensures Listing(SessionBefore, rows, all)
  {
    all, tables, pages := FollowSessionsFrom(rows, limit, FirstSessions);
    SessionOrder();
    FixedTableIsListed(SessionBefore, tables, None, SessionLimit(limit), pages, rows);
    assert Beyond(SessionBefore, rows, None) == rows;
  }

  method FollowSessionsFrom(rows: set<SessionKey>, limit: int, cursor: SessionCursor)
    returns (all: seq<SessionKey>, ghost tables: seq<set<SessionKey>>, ghost pages: seq<Page<SessionKey>>)
    requires Named(rows) && AcceptsSession(cursor)
    ensures all == Flat(pages) && Walk(SessionBefore, tables, SessionBoundary(cursor), SessionLimit(limit), pages)
    ensures forall i :: 0 <= i < |tables| ==> tables[i] == rows
    decreases Beyond(SessionBefore, rows, SessionBoundary(cursor))
  {
    var r := ListAIChatSessionPage(rows, limit, cursor);
    ghost var page := Page(r.items, r.next.AfterSession?);
    if r.next.FirstSessions? {
      all, tables, pages := r.items, [rows], [page];
      assert pages[1..] == [];
      return;
    }
    var last := r.items[SessionLimit(limit) - 1];
    assert last in r.items;
    SessionOrder();
    CursorAdvances(SessionBefore, rows, SessionBoundary(cursor), last);
    var rest;
    ghost var later, others;
    rest, later, others := FollowSessionsFrom(rows, limit, r.next);
    all, tables, pages := r.items + rest, [rows] + later, [page] + others;
    assert pages[1..] == others && tables[1..] == later;
  }

  /** The pages of a list that changes: in order, and without missing a session that is not touched meanwhile. */
  lemma SessionPagesList(tables: seq<set<SessionKey>>, limit: int, pages: seq<Page<SessionKey>>)
    requires Walk(SessionBefore, tables, None, SessionLimit(limit), pages)
    ensures Ascending(SessionBefore, Flat(pages))
    ensures forall k :: (forall i :: 0 <= i < |tables| ==> k in tables[i]) ==> k in Flat(pages)
    ensures (forall i :: 0 <= i < |tables| ==> tables[i] == tables[0]) ==>
      Listing(SessionBefore, tables[0], Flat(pages))
  {
    SessionOrder();
    WalkAscends(SessionBefore, tables, None, SessionLimit(limit), pages);
    forall k | forall i :: 0 <= i < |tables| ==> k in tables[i] ensures k in Flat(pages) {
      StayingRowIsReturned(SessionBefore, tables, None, SessionLimit(limit), pages, k);
    }
    if forall i :: 0 <= i < |tables| ==> tables[i] == tables[0] {
      FixedTableIsListed(SessionBefore, tables, None, SessionLimit(limit), pages, tables[0]);
      assert Beyond(SessionBefore, tables[0], None) == tables[0];
    }
  }

  /** One row per session, and a session is only ever updated to a later time. */
  ghost predicate TimesGrow(tables: seq<set<SessionKey>>) {
    forall i, j, a, b :: 0 <= i <= j < |tables| && a in tables[i] && b in tables[j] && a.id == b.id ==>
      a.updated <= b.updated && (i == j ==> a == b)
  }

  lemma {:induction false} LaterPagesHoldOtherSessions(tables: seq<set<SessionKey>>, after: SessionKey, limit: nat,
                                                      pages: seq<Page<SessionKey>>, first: set<SessionKey>,
                                                      a: SessionKey)
    requires limit > 0 && Walk(SessionBefore, tables, Some(after), limit, pages) && TimesGrow([first] + tables)
    requires a in first && (a == after || SessionBefore(a, after))
    ensures forall b :: b in Flat(pages) ==> b.id != a.id
  {
    SessionOrder();
    WalkAscends(SessionBefore, tables, Some(after), limit, pages);
    forall b | b in Flat(pages) ensures b.id != a.id {
      ReturnedRowExisted(SessionBefore, tables, Some(after), limit, pages, b);
      var i :| 0 <= i < |pages| && b in tables[i];
      assert ([first] + tables)[0] == first && ([first] + tables)[i + 1] == tables[i];
      assert SessionBefore(after, b) && SessionBefore(a, b);
      if b.id == a.id { TextLessTotal(a.id, a.id); }
    }
  }

  predicate DistinctIds(q: seq<SessionKey>) {
    forall i, j :: 0 <= i < j < |q| ==> q[i].id != q[j].id
  }

  /** No session is listed twice, although it may move while the pages are read. */
  lemma {:induction false} SessionsAreListedOnce(tables: seq<set<SessionKey>>, after: Option<SessionKey>, limit: nat,
                                                pages: seq<Page<SessionKey>>)
    requires limit > 0 && Walk(SessionBefore, tables, after, limit, pages) && TimesGrow(tables)
    ensures DistinctIds(Flat(pages))
    decreases |pages|
  {
    SessionOrder();
    var items := pages[0].items;
    PageIdsAreDistinct(tables[0], after, limit, pages[0], tables);
    if pages[0].more {
      var last := items[limit - 1];
      assert tables == [tables[0]] + tables[1..];
      assert TimesGrow(tables[1..]) by { TailTimesGrow(tables); }
      SessionsAreListedOnce(tables[1..], Some(last), limit, pages[1..]);
      forall a | a in items ensures forall b :: b in Flat(pages[1..]) ==> b.id != a.id {
        PageEndsWithLast(tables[0], after, limit, pages[0], a);
        LaterPagesHoldOtherSessions(tables[1..], last, limit, pages[1..], tables[0], a);
      }
      DistinctTogether(items, Flat(pages[1..]));
    } else {
      assert pages[1..] == [];
      assert Flat(pages) == items;
    }
  }

  lemma DistinctTogether(p: seq<SessionKey>, q: seq<SessionKey>)
    requires DistinctIds(p) && DistinctIds(q) && forall a, b :: a in p && b in q ==> b.id != a.id
    ensures DistinctIds(p + q)
  {
    forall i, j | 0 <= i < j < |p + q| ensures (p + q)[i].id != (p + q)[j].id {
      if i < |p| <= j { assert p[i] in p && q[j - |p|] in q; }
    }
  }

  lemma PageEndsWithLast(rows: set<SessionKey>, after: Option<SessionKey>, limit: nat, page: Page<SessionKey>,
                         a: SessionKey)
    requires IsPage(SessionBefore, rows, after, limit, page) && page.more && limit > 0 && a in page.items
    ensures a in rows && (a == page.items[limit - 1] || SessionBefore(a, page.items[limit - 1]))
  {}

  lemma TailTimesGrow(tables: seq<set<SessionKey>>)
    requires TimesGrow(tables) && tables != []
    ensures TimesGrow(tables[1..])
  {
    forall i, j, a, b | 0 <= i <= j < |tables[1..]| && a in tables[1..][i] && b in tables[1..][j] && a.id == b.id
      ensures a.updated <= b.updated && (i == j ==> a == b)
    {
      assert a in tables[i + 1] && b in tables[j + 1];
    }
  }

  lemma PageIdsAreDistinct(rows: set<SessionKey>, after: Option<SessionKey>, limit: nat, page: Page<SessionKey>,
                           tables: seq<set<SessionKey>>)
    requires IsPage(SessionBefore, rows, after, limit, page) && tables != [] && tables[0] == rows && TimesGrow(tables)
    ensures DistinctIds(page.items)
  {
    SessionOrder();
    forall i, j | 0 <= i < j < |page.items| ensures page.items[i].id != page.items[j].id {
      assert page.items[i] in page.items && page.items[j] in page.items;
      assert SessionBefore(page.items[i], page.items[j]);
      assert page.items[i] in tables[0] && page.items[j] in tables[0];
    }
  }

  // ------------------------------------------------------ messages of a session

  const LAST_POSITION := 0x7FFF_FFFF_FFFF_FFFF

  predicate Later(a: int, b: int) { a > b }
  predicate Earlier(a: int, b: int) { a < b }

  function MessageLimit(limit: int): nat { if limit < 1 || limit > 100 then 100 else limit }

  function Reversed<T>(q: seq<T>): seq<T> {
    if q == [] then [] else Reversed(q[1..]) + [q[0]]
  }

  lemma {:induction false} ReversedAt<T>(q: seq<T>, i: nat)
    requires i < |q|
    ensures |Reversed(q)| == |q| && Reversed(q)[i] == q[|q| - 1 - i]
  {
    if |q| > 1 { ReversedAt(q[1..], if i < |q| - 1 then i else 0); }
  }

  lemma {:induction false} ReversedAppend<T>(a: seq<T>, b: seq<T>)
    ensures Reversed(a + b) == Reversed(b) + Reversed(a)
  {
    if a == [] {
      assert a + b == b;
    } else {
      assert (a + b)[1..] == a[1..] + b;
      ReversedAppend(a[1..], b);
    }
  }

  lemma ReversedTwice<T>(q: seq<T>)
    ensures |Reversed(q)| == |q| && Reversed(Reversed(q)) == q
  {
    if q != [] {
      ReversedAppend(Reversed(q[1..]), [q[0]]);
      ReversedTwice(q[1..]);
      assert Reversed([q[0]]) == [q[0]];
    }
  }

  /** Reversing an ascending list of later-first positions gives the earlier-first list of the same rows. */
  lemma ReversedListing(rows: set<int>, q: seq<int>)
    requires Listing(Later, rows, q)
    ensures Listing(Earlier, rows, Reversed(q))
  {
    var r := Reversed(q);
    ReversedTwice(q);
    forall i, j | 0 <= i < j < |r| ensures Earlier(r[i], r[j]) {
      ReversedAt(q, i);
      ReversedAt(q, j);
      assert Later(q[|q| - 1 - j], q[|q| - 1 - i]);
    }
    forall k ensures k in r <==> k in q {
      if k in q {
        var i :| 0 <= i < |q| && q[i] == k;
        ReversedAt(q, |q| - 1 - i);
      }
      if k in r {
        var i :| 0 <= i < |r| && r[i] == k;
        ReversedAt(q, i);
      }
    }
  }

  /** Two ends that walk towards each other. */
  method ReverseInPlace<T>(a: array<T>)
    modifies a
    ensures a[..] == Reversed(old(a[..]))
  {
    var i, j := 0, a.Length - 1;
    while i < j
      invariant 0 <= i <= a.Length && -1 <= j < a.Length && i + j == a.Length - 1
      invariant forall k :: 0 <= k < i || j < k < a.Length ==> a[k] == old(a[a.Length - 1 - k])
      invariant forall k :: i <= k <= j ==> a[k] == old(a[k])
    {
      a[i], a[j] := a[j], a[i];
      i, j := i + 1, j - 1;
    }
    ghost var was := old(a[..]);
    ReversedTwice(was);
    forall k | 0 <= k < a.Length ensures a[..][k] == Reversed(was)[k] {
      ReversedAt(was, k);
    }
  }

  /** The newest messages before a position, oldest first, and where the next older page starts. */
  method MessagePage(positions: set<int>, limit: int, before: Option<int>)
    returns (items: seq<int>, more: bool, nextBefore: Option<int>)
    ensures IsPage(Later, positions, Some(if before.Some? then before.value else LAST_POSITION), MessageLimit(limit),
      Page(Reversed(items), more))
    ensures nextBefore == if more then Some(items[0]) else None
  {
    var size := limit;
    if size < 1 || size > 100 { size := 100; }
    var bound := LAST_POSITION;
    if before.Some? { bound := before.value; }
    var p := ReadPage(Later, positions, Some(bound), size);
    var a := new int[|p.items|](i requires 0 <= i < |p.items| => p.items[i]);
    assert a[..] == p.items;
    ReverseInPlace(a);
    items, more := a[..], p.more;
    nextBefore := None;
    if more { nextBefore := Some(items[0]); }
    ReversedTwice(p.items);
  }

  /** The history a reader assembles: each older page goes in front of what is there. */
  function Assembled(pages: seq<Page<int>>): seq<int> {
    if pages == [] then [] else Assembled(pages[1..]) + Reversed(pages[0].items)
  }

  lemma {:induction false} AssembledIsReversed(pages: seq<Page<int>>)
    ensures Assembled(pages) == Reversed(Flat(pages))
  {
    if pages != [] {
      AssembledIsReversed(pages[1..]);
      ReversedAppend(pages[0].items, Flat(pages[1..]));
    }
  }

  /** Read from the newest page back, the messages come out in order and complete. */
  lemma HistoryIsComplete(positions: set<int>, limit: int, tables: seq<set<int>>, pages: seq<Page<int>>)
    requires Walk(Later, tables, Some(LAST_POSITION), MessageLimit(limit), pages)
    requires forall i :: 0 <= i < |tables| ==> tables[i] == positions
    requires forall p :: p in positions ==> p < LAST_POSITION
    ensures Listing(Earlier, positions, Assembled(pages))
  {
    FixedTableIsListed(Later, tables, Some(LAST_POSITION), MessageLimit(limit), pages, positions);
    AssembledIsReversed(pages);
    AllBefore(positions);
    ReversedListing(positions, Flat(pages));
  }

  /**
   Following nextBefore from the newest page to the oldest over an unchanged session, each page
   in front of what is there, ends and gives the whole history in order.
   */
  method FollowHistory(positions: set<int>, limit: int)
    returns (all: seq<int>, ghost tables: seq<set<int>>, ghost pages: seq<Page<int>>)
    requires forall p :: p in positions ==> p < LAST_POSITION
    ensures all == Assembled(pages) && Walk(Later, tables, Some(LAST_POSITION), MessageLimit(limit), pages)
    ensures Listing(Earlier, positions, all)
  {
    all, tables, pages := FollowHistoryFrom(positions, limit, None);
    HistoryIsComplete(positions, limit, tables, pages);
  }

  method FollowHistoryFrom(positions: set<int>, limit: int, before: Option<int>)
    returns (all: seq<int>, ghost tables: seq<set<int>>, ghost pages: seq<Page<int>>)
    ensures all == Assembled(pages)
    ensures Walk(Later, tables, Some(if before.Some? then before.value else LAST_POSITION), MessageLimit(limit), pages)
    ensures forall i :: 0 <= i < |tables| ==> tables[i] == positions
    decreases Beyond(Later, positions, Some(if before.Some? then before.value else LAST_POSITION))
  {
    var bound := if before.Some? then before.value else LAST_POSITION;
    var items, more, nextBefore := MessagePage(positions, limit, before);
    ghost var page := Page(Reversed(items), more);
    ReversedTwice(items);
    if !more {
      all, tables, pages := items, [positions], [page];
      assert pages[1..] == [];
      return;
    }
    ReversedAt(items, |items| - 1);
    assert items[0] == page.items[MessageLimit(limit) - 1] && items[0] in page.items;
    CursorAdvances(Later, positions, Some(bound), items[0]);
    var rest;
    ghost var later, others;
    rest, later, others := FollowHistoryFrom(positions, limit, nextBefore);
    all, tables, pages := rest + items, [positions] + later, [page] + others;
    assert pages[1..] == others && tables[1..] == later;
  }

  lemma AllBefore(positions: set<int>)
    requires forall p :: p in positions ==> p < LAST_POSITION
    ensures Beyond(Later, positions, Some(LAST_POSITION)) == positions
  {
    forall p | p in positions ensures Later(LAST_POSITION, p) {}
  }
}
