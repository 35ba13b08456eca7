/** What a choice of the user stores, what the end of a delivery leaves of it, and what a pull shows. */
module FlagChoices {
  import opened Wrappers
  import opened Strings
  import opened FlagModel
  import opened FlagRuns

  /** A key is understood: a folder name, and a message number. */
  predicate Names(raw: RawKey, k: Key) {
    Trim(raw.folder) != "" && k.folder == Trim(raw.folder) && ParseUid(raw.uid) == Some(k.uid)
  }

  predicate Known(box: Box, raw: RawKey) {
    Trim(raw.folder) != "" && ParseUid(raw.uid).Some? && Key(Trim(raw.folder), ParseUid(raw.uid).value) in box.messages
  }

  /** The named messages that are not yet as asked. */
  function Differing(box: Box, keys: seq<RawKey>, seen: bool): set<Key> {
    set i | 0 <= i < |keys| && Known(box, keys[i])
              && Seen(box.messages[Key(Trim(keys[i].folder), ParseUid(keys[i].uid).value)]) != seen
      :: Key(Trim(keys[i].folder), ParseUid(keys[i].uid).value)
  }

  function NextVersion(box: Box, k: Key): nat { if k in box.pending then box.pending[k].version + 1 else 1 }

  /** Exactly these messages get the flag as asked, and a log row that is due at once under its next version. */
  ghost predicate Stored(a: Box, b: Box, touched: set<Key>, seen: bool) {
    && touched <= a.messages.Keys && b.messages.Keys == a.messages.Keys && b.pending.Keys == a.pending.Keys + touched
    && (forall k :: k in touched ==>
          b.messages[k] == WithState(a.messages[k], SEEN, seen) && b.pending[k] == Row(seen, NextVersion(a, k), 0, 0))
    && (forall k :: k in a.messages && k !in touched ==> b.messages[k] == a.messages[k])
    && (forall k :: k in a.pending && k !in touched ==> b.pending[k] == a.pending[k])
  }

  lemma OneMoreKey(box: Box, keys: seq<RawKey>, seen: bool, k: Key)
    requires keys != [] && Names(keys[0], k) && k in box.messages
    ensures Seen(box.messages[k]) == seen ==> Differing(box, keys, seen) == Differing(box, keys[1..], seen)
    ensures Seen(box.messages[k]) != seen ==>
      && Differing(box, keys, seen) == Differing(Toggle(box, k, seen), keys[1..], seen) + {k}
      && k !in Differing(Toggle(box, k, seen), keys[1..], seen)
  {
    var rest := keys[1..];
    StateIsSet(box.messages[k], SEEN, seen);
    forall x ensures x in Differing(box, keys, seen) <==>
      (x == k && Seen(box.messages[k]) != seen) || x in Differing(box, rest, seen)
    {
      if x in Differing(box, keys, seen) {
        var i :| 0 <= i < |keys| && Known(box, keys[i]) && x == Key(Trim(keys[i].folder), ParseUid(keys[i].uid).value);
        if i > 0 { assert rest[i - 1] == keys[i]; }
      }
      if x in Differing(box, rest, seen) {
        var i :| 0 <= i < |rest| && Known(box, rest[i]) && x == Key(Trim(rest[i].folder), ParseUid(rest[i].uid).value);
        assert keys[i + 1] == rest[i];
      }
      if x == k && Seen(box.messages[k]) != seen { assert Known(box, keys[0]); }
    }
    assert forall raw :: Known(Toggle(box, k, seen), raw) <==> Known(box, raw);
  }

  ghost predicate AllKnown(box: Box, keys: seq<RawKey>) {
    forall i :: 0 <= i < |keys| ==> Known(box, keys[i])
  }

  lemma FirstAndRest(box: Box, keys: seq<RawKey>)
    requires keys != []
    ensures AllKnown(box, keys) <==> Known(box, keys[0]) && AllKnown(box, keys[1..])
  {
    assert forall i :: 0 < i < |keys| ==> keys[i] == keys[1..][i - 1];
    assert forall i :: 0 <= i < |keys[1..]| ==> keys[1..][i] == keys[i + 1];
  }

  lemma ToggleKnows(box: Box, k: Key, seen: bool, keys: seq<RawKey>)
    requires k in box.messages
    ensures AllKnown(Toggle(box, k, seen), keys) <==> AllKnown(box, keys)
  {
    assert forall raw :: Known(Toggle(box, k, seen), raw) <==> Known(box, raw);
  }

  /** A choice is accepted exactly if every key names a stored message. */
  lemma {:induction false} ChoiceIsAccepted(box: Box, keys: seq<RawKey>, seen: bool)
    ensures QueueEach(box, keys, seen).Queued? <==> AllKnown(box, keys)
    decreases |keys|
  {
    if keys != [] {
      FirstAndRest(box, keys);
      if Known(box, keys[0]) {
        var k := ParseKey(keys[0]).value;
        ToggleKnows(box, k, seen, keys[1..]);
        ChoiceIsAccepted(if Seen(box.messages[k]) == seen then box else Toggle(box, k, seen), keys[1..], seen);
      }
    }
  }

  lemma StoredAfterToggle(box: Box, z: Box, k: Key, touched: set<Key>, seen: bool)
    requires k in box.messages && k !in touched && Stored(Toggle(box, k, seen), z, touched, seen)
    ensures Stored(box, z, touched + {k}, seen)
  {}

  function FoldersOf(touched: set<Key>): set<string> { set k | k in touched :: k.folder }

  lemma OneMoreFolder(touched: set<Key>, k: Key)
    ensures FoldersOf(touched + {k}) == FoldersOf(touched) + {k.folder}
  {
    forall f | f in FoldersOf(touched) + {k.folder} ensures f in FoldersOf(touched + {k}) {
      if f in FoldersOf(touched) {
        var x :| x in touched && x.folder == f;
        assert x in touched + {k};
      } else {
        assert k in touched + {k};
      }
    }
  }

  /** The flag and a log row for each of these messages, each counted once; the folders are theirs. */
  ghost predicate Outcome(box: Box, r: Queued, touched: set<Key>, seen: bool) {
    && r.Queued? && Stored(box, r.box, touched, seen) && r.box.unread == box.unread
    && r.updated == |touched| && r.folders == FoldersOf(touched)
  }

  lemma CountsOne(box: Box, r: Queued, k: Key, touched: set<Key>, seen: bool)
    requires k in box.messages && k !in touched && Outcome(Toggle(box, k, seen), r, touched, seen)
    ensures Outcome(box, Counted(r, 1, {k.folder}), touched + {k}, seen)
  {
    StoredAfterToggle(box, r.box, k, touched, seen);
    OneMoreFolder(touched, k);
    assert Counted(r, 1, {k.folder}).box == r.box;
  }

  /** An accepted choice stores it for exactly the messages that were not as asked, however often they were named. */
  lemma {:induction false} ChoiceStores(box: Box, keys: seq<RawKey>, seen: bool)
    requires QueueEach(box, keys, seen).Queued?
    ensures Outcome(box, QueueEach(box, keys, seen), Differing(box, keys, seen), seen)
    decreases |keys|
  {
    if keys == [] {
      assert Differing(box, keys, seen) == {};
    } else {
      var k := ParseKey(keys[0]).value;
      OneMoreKey(box, keys, seen, k);
      if Seen(box.messages[k]) == seen {
        ChoiceStores(box, keys[1..], seen);
      } else {
        var toggled := Toggle(box, k, seen);
        ChoiceStores(toggled, keys[1..], seen);
        CountsOne(box, QueueEach(toggled, keys[1..], seen), k, Differing(toggled, keys[1..], seen), seen);
      }
    }
  }

  /** A refused choice names its first bad key: no message number, or no such message. */
  lemma {:induction false} WhyRefused(box: Box, keys: seq<RawKey>, seen: bool) returns (i: nat)
    requires QueueEach(box, keys, seen).Rejected?
    ensures i < |keys| && !Known(box, keys[i]) && forall j :: 0 <= j < i ==> Known(box, keys[j])
    ensures QueueEach(box, keys, seen).missing <==> Trim(keys[i].folder) != "" && ParseUid(keys[i].uid).Some?
    decreases |keys|
  {
    if !Known(box, keys[0]) {
      i := 0;
    } else {
      var k := ParseKey(keys[0]).value;
      i := WhyRefused(if Seen(box.messages[k]) == seen then box else Toggle(box, k, seen), keys[1..], seen);
      i := i + 1;
    }
  }

  /** The end of a delivery: under the listed version the row goes, or waits with one more attempt; else nothing. */
  lemma DeliverySettles(box: Box, k: Key, version: nat, next: int)
    ensures var current := k in box.pending && box.pending[k].version == version;
      && Complete(box, k, version) == (if current then box.(pending := box.pending - {k}) else box)
      && Defer(box, k, version, next) ==
           if current then
             box.(pending := box.pending[k := Row(box.pending[k].add, version, box.pending[k].attempts + 1, next)])
           else box
  {}

  // ---------------------------------------------------------------------- pulls

  /** The flags a list of fetched items has for a message number; the last one counts. */
  function Fetched(items: seq<Item>, uid: nat): Option<Flags> {
    if items == [] then None
    else if Fetched(items[1..], uid).Some? then Fetched(items[1..], uid)
    else if items[0].uid == uid then Some(items[0].flags) else None
  }

  /** Fetched flags under our own pending change, or what was there. */
  function Shown(box: Box, items: seq<Item>, k: Key, before: Flags): Flags {
    match Fetched(items, k.uid)
    case None => before
    case Some(flags) => if k in box.pending then WithState(flags, SEEN, box.pending[k].add) else flags
  }

  /** A sync shows the fetched flags on every cached message of its folder, and caches nothing new. */
  lemma {:induction false} SyncShows(box: Box, folder: string, items: seq<Item>)
    ensures var z := SyncEach(box, folder, items).0;
      && z == box.(messages := z.messages) && z.messages.Keys == box.messages.Keys
      && forall k :: k in box.messages ==>
           z.messages[k] == if k.folder == folder then Shown(box, items, k, box.messages[k]) else box.messages[k]
    decreases |items|
  {
    if items != [] {
      var k := Key(folder, items[0].uid);
      var flags := Overlaid(box.pending, k, items[0].flags);
      SyncShows(if k !in box.messages then box else box.(messages := box.messages[k := flags]), folder, items[1..]);
      if k in box.messages && box.messages[k] == flags { assert box.messages[k := flags] == box.messages; }
    }
  }

  /** An upsert does so for every fetched message that is not on its way out, cached or not. */
  lemma {:induction false} UpsertShows(box: Box, folder: string, items: seq<Item>, moving: set<nat>)
    ensures var z := UpsertEach(box, folder, items, moving);
      && z == box.(messages := z.messages)
      && forall k: Key ::
           var fetched := k.folder == folder && k.uid !in moving && Fetched(items, k.uid).Some?;
           && (k in z.messages <==> k in box.messages || fetched)
           && (fetched ==> z.messages[k] == Shown(box, items, k, []))
           && (k in box.messages && !fetched ==> z.messages[k] == box.messages[k])
    decreases |items|
  {
    if items != [] {
      var k := Key(folder, items[0].uid);
      UpsertShows(if k.uid in moving then box
                  else box.(messages := box.messages[k := Overlaid(box.pending, k, items[0].flags)]),
                  folder, items[1..], moving);
    }
  }

  predicate DistinctUids(items: seq<Item>) {
    forall i, j :: 0 <= i < j < |items| ==> items[i].uid != items[j].uid
  }

  function Changed(a: Box, b: Box): set<Key> {
    set k | k in a.messages && k in b.messages && a.messages[k] != b.messages[k]
  }

  lemma {:induction false} NotFetched(items: seq<Item>, uid: nat)
    requires forall i :: 0 <= i < |items| ==> items[i].uid != uid
    ensures Fetched(items, uid) == None
  {
    if items != [] { NotFetched(items[1..], uid); }
  }

  /** It reports how many messages it changed. */
  lemma {:induction false} SyncCounts(box: Box, folder: string, items: seq<Item>)
    requires DistinctUids(items)
    ensures var (z, n) := SyncEach(box, folder, items); n == |Changed(box, z)|
    decreases |items|
  {
    SyncShows(box, folder, items);
    if items == [] {
      assert Changed(box, box) == {};
    } else {
      var k := Key(folder, items[0].uid);
      var flags := Overlaid(box.pending, k, items[0].flags);
      var rest := items[1..];
      SyncCounts(if k !in box.messages || box.messages[k] == flags then box
                 else box.(messages := box.messages[k := flags]), folder, rest);
      if k in box.messages && box.messages[k] != flags {
        var next := box.(messages := box.messages[k := flags]);
        var z := SyncEach(next, folder, rest).0;
        SyncShows(next, folder, rest);
        NotFetched(rest, k.uid);
        assert z.messages[k] == flags;
        assert Changed(box, z) == Changed(next, z) + {k};
      }
    }
  }

  // -------------------------------------------------------------- whole rounds

  /** A listed change that is delivered and acknowledged is on the server, and gone from the log. */
  lemma DeliveryRound(y: System, k: Key)
    requires y.worker == Idle && k in y.box.pending
    ensures var add := y.box.pending[k].add;
      && Enabled(y, List({k}))
      && var a := Apply(y, List({k}));
      && Enabled(a, Deliver({k}, add, true, {k}))
      && var b := Apply(a, Deliver({k}, add, true, {k}));
      && Enabled(b, Ack(k))
      && var z := Apply(b, Ack(k));
      && z.box == y.box.(pending := y.box.pending - {k}) && z.server.Keys == y.server.Keys
      && (forall j :: j in y.server && j != k ==> z.server[j] == y.server[j])
      && (k in y.server ==>
            && (Seen(z.server[k]) <==> add)
            && FlagModel.Others(z.server[k], SEEN) == FlagModel.Others(y.server[k], SEEN))
  {
    if k in y.server { StateIsSet(y.server[k], SEEN, y.box.pending[k].add); }
  }

  /** A folder that is fetched and synced shows the server's flags, except for our own pending changes. */
  lemma PullRound(y: System, folder: string, items: seq<Item>, k: Key)
    requires y.worker == Idle && Enabled(y, Fetch(folder, items)) && k in y.box.messages && k.folder == folder
    requires Fetched(items, k.uid).Some?
    ensures var z := Apply(Apply(y, Fetch(folder, items)), Sync);
      && k in y.server && k in z.box.messages && z.box.pending == y.box.pending && z.server == y.server
      && z.box.messages[k] ==
           if k in y.box.pending then WithState(y.server[k], SEEN, y.box.pending[k].add) else y.server[k]
  {
    SyncShows(y.box, folder, items);
    FetchedIsItem(items, k.uid);
  }

  lemma {:induction false} FetchedIsItem(items: seq<Item>, uid: nat)
    requires Fetched(items, uid).Some?
    ensures exists i :: 0 <= i < |items| && items[i] == Item(uid, Fetched(items, uid).value)
  {
    if Fetched(items[1..], uid).Some? {
      FetchedIsItem(items[1..], uid);
      var i :| 0 <= i < |items[1..]| && items[1..][i] == Item(uid, Fetched(items, uid).value);
      assert items[i + 1] == Item(uid, Fetched(items, uid).value);
    } else {
      assert items[0] == Item(uid, Fetched(items, uid).value);
    }
  }

  predicate StandsAt(text: string, part: string, i: nat) {
    i + |part| <= |text| && text[i..i + |part|] == part
  }

  lemma {:induction false} WithinStands(text: string, part: string) returns (i: nat)
    requires Within(text, part)
    ensures StandsAt(text, part, i)
  {
    if part <= text {
      i := 0;
    } else {
      i := WithinStands(text[1..], part);
      assert text[i + 1..i + 1 + |part|] == text[1..][i..i + |part|];
      i := i + 1;
    }
  }

  lemma {:induction false} StandsWithin(text: string, part: string, i: nat)
    requires StandsAt(text, part, i)
    ensures Within(text, part)
    decreases i
  {
    if i == 0 {
      assert text[..|part|] == part;
    } else {
      assert text[1..][i - 1..i - 1 + |part|] == text[i..i + |part|];
      if text != "" { StandsWithin(text[1..], part, i - 1); }
    }
  }

  /** The search in the stored list finds a text wherever it stands. */
  lemma WithinIsAnywhere(text: string, part: string)
    ensures Within(text, part) <==> exists i: nat :: StandsAt(text, part, i)
  {
    if Within(text, part) {
      var i := WithinStands(text, part);
    }
    if i: nat :| StandsAt(text, part, i) { StandsWithin(text, part, i); }
  }
}
