/**
 Keyset pagination over any strict total order: a page holds the next rows after a
 cursor, and says whether rows remain. Between two pages the table may change.
 */
module Keyset {
  import opened Wrappers

  ghost predicate StrictTotal<K(!new)>(less: (K, K) -> bool) {
    && (forall a, b, c :: less(a, b) && less(b, c) ==> less(a, c))
    && (forall a, b :: less(a, b) || less(b, a) || a == b)
    && (forall a :: !less(a, a))
  }

  ghost predicate Ascending<K(!new)>(less: (K, K) -> bool, q: seq<K>) {
    forall i, j :: 0 <= i < j < |q| ==> less(q[i], q[j])
  }

  /** All rows of the table, each once, in order. */
  ghost predicate Listing<K(!new)>(less: (K, K) -> bool, rows: set<K>, q: seq<K>) {
    Ascending(less, q) && forall k :: k in q <==> k in rows
  }

  /** The rows the cursor condition selects. */
  function Beyond<K>(less: (K, K) -> bool, rows: set<K>, after: Option<K>): set<K> {
    set k | k in rows && (after.Some? ==> less(after.value, k))
  }

  datatype Page<K> = Page(items: seq<K>, more: bool)

  ghost predicate IsPage<K(!new)>(less: (K, K) -> bool, rows: set<K>, after: Option<K>, limit: nat, p: Page<K>) {
    var rest := Beyond(less, rows, after);
    && Ascending(less, p.items) && |p.items| <= limit
    && (forall k :: k in p.items ==> k in rest)
    && (forall k, i :: k in rest && k !in p.items && 0 <= i < |p.items| ==> less(p.items[i], k))
    && (p.more ==> |p.items| == limit)
    && (p.more <==> exists k :: k in rest && k !in p.items)
  }

  /** Pages read one after the other, the cursor being the last row so far; page i sees the i-th state of the table. */
  ghost predicate Walk<K(!new)>(less: (K, K) -> bool, tables: seq<set<K>>, after: Option<K>, limit: nat,
                         pages: seq<Page<K>>)
    decreases |pages|
  {
    && pages != [] && |pages| <= |tables| && IsPage(less, tables[0], after, limit, pages[0])
    && if pages[0].more && limit > 0 then Walk(less, tables[1..], Some(pages[0].items[limit - 1]), limit, pages[1..])
       else |pages| == 1
  }

  function Flat<K>(pages: seq<Page<K>>): seq<K> {
    if pages == [] then [] else pages[0].items + Flat(pages[1..])
  }

  lemma FirstIsLeast<K(!new)>(less: (K, K) -> bool, rows: set<K>, q: seq<K>, k: K)
    requires Listing(less, rows, q) && k in rows
    ensures q != [] && (q[0] == k || less(q[0], k))
  {
    assert k in q;
  }

  /** Sorted lists of the same rows are the same list. */
  lemma {:induction false} ListingIsUnique<K(!new)>(less: (K, K) -> bool, rows: set<K>, p: seq<K>, q: seq<K>)
    requires StrictTotal(less) && Listing(less, rows, p) && Listing(less, rows, q)
    ensures p == q
    decreases |p|
  {
    if q != [] { assert q[0] in q; }
    if p != [] { assert p[0] in p; }
    if q != [] { FirstIsLeast(less, rows, p, q[0]); }
    if p != [] {
      FirstIsLeast(less, rows, q, p[0]);
      forall k ensures k in p[1..] <==> k in rows - {p[0]} {
        if k in p[1..] {
          var i :| 0 <= i < |p| - 1 && p[1..][i] == k;
          assert less(p[0], p[i + 1]);
        }
      }
      forall k ensures k in q[1..] <==> k in rows - {p[0]} {
        if k in q[1..] {
          var i :| 0 <= i < |q| - 1 && q[1..][i] == k;
          assert less(q[0], q[i + 1]);
        }
      }
      ListingIsUnique(less, rows - {p[0]}, p[1..], q[1..]);
      assert p == [p[0]] + p[1..] && q == [q[0]] + q[1..];
    }
  }

  /** Whatever happens to the table in between, no row is returned twice and the order never goes back. */
  lemma {:induction false} WalkAscends<K(!new)>(less: (K, K) -> bool, tables: seq<set<K>>, after: Option<K>,
                                         limit: nat, pages: seq<Page<K>>)
    requires StrictTotal(less) && limit > 0 && Walk(less, tables, after, limit, pages)
    ensures Ascending(less, Flat(pages))
    ensures after.Some? ==> forall k :: k in Flat(pages) ==> less(after.value, k)
    decreases |pages|
  {
    var items := pages[0].items;
    if pages[0].more {
      var last := items[limit - 1];
      assert last in items;
      WalkAscends(less, tables[1..], Some(last), limit, pages[1..]);
      var rest := Flat(pages[1..]);
      forall i, j | 0 <= i < j < |items + rest| ensures less((items + rest)[i], (items + rest)[j]) {
        if j >= |items| {
          assert rest[j - |items|] in rest;
          if i < limit - 1 { assert less(items[i], last); }
        }
      }
    } else {
      assert pages[1..] == [];
      assert Flat(pages) == items;
    }
  }

  /** A row that stays in the table is returned, whatever is inserted or deleted around it. */
  lemma {:induction false} StayingRowIsReturned<K(!new)>(less: (K, K) -> bool, tables: seq<set<K>>, after: Option<K>,
                                                  limit: nat, pages: seq<Page<K>>, k: K)
    requires StrictTotal(less) && limit > 0 && Walk(less, tables, after, limit, pages)
    requires forall i :: 0 <= i < |tables| ==> k in tables[i]
    requires after.Some? ==> less(after.value, k)
    ensures k in Flat(pages)
    decreases |pages|
  {
    assert k in tables[0];
    assert k in Beyond(less, tables[0], after);
    if k !in pages[0].items {
      StayingRowIsReturned(less, tables[1..], Some(pages[0].items[limit - 1]), limit, pages[1..], k);
    }
  }

  /** Every returned row was in the table when its page was read. */
  lemma {:induction false} ReturnedRowExisted<K(!new)>(less: (K, K) -> bool, tables: seq<set<K>>, after: Option<K>,
                                                limit: nat, pages: seq<Page<K>>, k: K)
    requires limit > 0 && Walk(less, tables, after, limit, pages) && k in Flat(pages)
    ensures exists i :: 0 <= i < |pages| && k in tables[i]
    decreases |pages|
  {
    if k in pages[0].items {
      assert k in tables[0];
    } else {
      ReturnedRowExisted(less, tables[1..], Some(pages[0].items[limit - 1]), limit, pages[1..], k);
      var i :| 0 <= i < |pages[1..]| && k in tables[1..][i];
      assert k in tables[i + 1];
    }
  }

  /** Over a table that does not change the pages make up exactly its sorted rows beyond the first cursor. */
  lemma FixedTableIsListed<K(!new)>(less: (K, K) -> bool, tables: seq<set<K>>, after: Option<K>, limit: nat,
                             pages: seq<Page<K>>, rows: set<K>)
    requires StrictTotal(less) && limit > 0 && Walk(less, tables, after, limit, pages)
    requires forall i :: 0 <= i < |tables| ==> tables[i] == rows
    ensures Listing(less, Beyond(less, rows, after), Flat(pages))
  {
    WalkAscends(less, tables, after, limit, pages);
    forall k ensures k in Flat(pages) <==> k in Beyond(less, rows, after) {
      if k in Beyond(less, rows, after) { StayingRowIsReturned(less, tables, after, limit, pages, k); }
      if k in Flat(pages) { ReturnedRowExisted(less, tables, after, limit, pages, k); }
    }
  }

  /** Rows that come before everything the first page saw neither appear nor disturb the rest. */
  lemma NewerRowsDoNotDisturb<K(!new)>(less: (K, K) -> bool, tables: seq<set<K>>, limit: nat, pages: seq<Page<K>>)
    requires StrictTotal(less) && limit > 0 && Walk(less, tables, None, limit, pages)
    requires forall i, k :: 0 <= i < |tables| && k in tables[0] ==> k in tables[i]
    requires forall i, k, old_ :: 0 <= i < |tables| && k in tables[i] && k !in tables[0] && old_ in tables[0] ==>
      less(k, old_)
    ensures Listing(less, tables[0], Flat(pages))
  {
    WalkAscends(less, tables, None, limit, pages);
    forall k ensures k in Flat(pages) <==> k in tables[0] {
      if k in tables[0] { StayingRowIsReturned(less, tables, None, limit, pages, k); }
      if k in Flat(pages) {
        if k !in pages[0].items {
          var last := pages[0].items[limit - 1];
          WalkAscends(less, tables[1..], Some(last), limit, pages[1..]);
          ReturnedRowExisted(less, tables[1..], Some(last), limit, pages[1..], k);
          var i :| 0 <= i < |pages[1..]| && k in tables[1..][i];
          assert last in pages[0].items;
          assert k in tables[i + 1] && last in tables[0];
        }
      }
    }
  }

  /** The next cursor leaves strictly fewer rows beyond it. */
  lemma CursorAdvances<K(!new)>(less: (K, K) -> bool, rows: set<K>, after: Option<K>, last: K)
    requires StrictTotal(less) && last in Beyond(less, rows, after)
    ensures Beyond(less, rows, Some(last)) < Beyond(less, rows, after)
  {
    assert !less(last, last);
    assert last !in Beyond(less, rows, Some(last));
  }

  // ------------------------------------------------------------------- query

  /** The least row that is left. */
  method Least<K(!new, ==)>(less: (K, K) -> bool, rows: set<K>) returns (k: K)
    requires StrictTotal(less) && rows != {}
    ensures k in rows && forall e :: e in rows && e != k ==> less(k, e)
  {
    k :| k in rows;
    var rest := rows - {k};
    while rest != {}
      invariant rest <= rows && k in rows && k !in rest
      invariant forall e :: e in rows && e !in rest && e != k ==> less(k, e)
      decreases rest
    {
      var e :| e in rest;
      rest := rest - {e};
      if less(e, k) { k := e; }
    }
  }

  /** WHERE cursor condition ORDER BY the order LIMIT limit + 1, cut to the limit. */
  method ReadPage<K(!new, ==)>(less: (K, K) -> bool, rows: set<K>, after: Option<K>, limit: nat) returns (p: Page<K>)
    requires StrictTotal(less)
    ensures IsPage(less, rows, after, limit, p)
  {
    var selected := Beyond(less, rows, after);
    var rest := selected;
    var items: seq<K> := [];
    while rest != {} && |items| < limit
      invariant rest <= selected && |items| <= limit && Ascending(less, items)
      invariant forall k :: k in items <==> k in selected && k !in rest
      invariant forall k, i :: k in rest && 0 <= i < |items| ==> less(items[i], k)
      decreases rest
    {
      var k := Least(less, rest);
      items := items + [k];
      rest := rest - {k};
    }
    if rest != {} {
      var k :| k in rest;
      assert k in selected && k !in items;
    }
    p := Page(items, rest != {});
  }
}
