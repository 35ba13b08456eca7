/**
 The local mirror's flags and the log of flag changes that still have to reach the
 IMAP server, for one account. Every queued change concerns \Seen.
 */
module FlagModel {
  import opened Wrappers
  import opened Strings

  type Flags = seq<string>

  const SEEN := "\\Seen"

  datatype Key = Key(folder: string, uid: nat)
  /** pending_flag_updates: the desired state, how often it was set, and the delivery attempts. */
  datatype Row = Row(add: bool, version: nat, attempts: nat, next: int)
  /** messages (flags only), pending_flag_updates, and folders (unread count only). */
  datatype Box = Box(messages: map<Key, Flags>, pending: map<Key, Row>, unread: map<string, nat>)

  // -------------------------------------------------------------- flag lists

  predicate HasFlag(flags: Flags, flag: string) {
    exists i :: 0 <= i < |flags| && EqualFold(flags[i], flag)
  }

  predicate Seen(flags: Flags) { HasFlag(flags, SEEN) }

  /** Every spelling of the flag replaced by the given one, or dropped. */
  function Spell(flags: Flags, flag: string, add: bool): Flags {
    if flags == [] then []
    else
      (if !EqualFold(flags[0], flag) then [flags[0]] else if add then [flag] else []) + Spell(flags[1..], flag, add)
  }

  function WithState(flags: Flags, flag: string, add: bool): Flags {
    Spell(flags, flag, add) + if add && !HasFlag(flags, flag) then [flag] else []
  }

  /** The flags other than this one, in order. */
  function Others(flags: Flags, flag: string): Flags {
    if flags == [] then []
    else (if EqualFold(flags[0], flag) then [] else [flags[0]]) + Others(flags[1..], flag)
  }

  lemma {:induction false} OthersAppend(a: Flags, b: Flags, flag: string)
    ensures Others(a + b, flag) == Others(a, flag) + Others(b, flag)
  {
    if a == [] {
      assert a + b == b;
    } else {
      assert (a + b)[1..] == a[1..] + b;
      OthersAppend(a[1..], b, flag);
    }
  }

  lemma HasFlagAppend(a: Flags, b: Flags, flag: string)
    ensures HasFlag(a + b, flag) <==> HasFlag(a, flag) || HasFlag(b, flag)
  {
    var ab := a + b;
    if HasFlag(a, flag) {
      var i :| 0 <= i < |a| && EqualFold(a[i], flag);
      assert EqualFold(ab[i], flag);
    }
    if HasFlag(b, flag) {
      var i :| 0 <= i < |b| && EqualFold(b[i], flag);
      assert EqualFold(ab[|a| + i], flag);
    }
    if HasFlag(ab, flag) {
      var i :| 0 <= i < |ab| && EqualFold(ab[i], flag);
      assert if i < |a| then EqualFold(a[i], flag) else EqualFold(b[i - |a|], flag);
    }
  }

  lemma {:induction false} SpellOthers(flags: Flags, flag: string, add: bool)
    ensures Others(Spell(flags, flag, add), flag) == Others(flags, flag)
    ensures HasFlag(Spell(flags, flag, add), flag) <==> add && HasFlag(flags, flag)
  {
    if flags != [] {
      SpellOthers(flags[1..], flag, add);
      var head: Flags := if !EqualFold(flags[0], flag) then [flags[0]] else if add then [flag] else [];
      OthersAppend(head, Spell(flags[1..], flag, add), flag);
      HasFlagAppend(head, Spell(flags[1..], flag, add), flag);
      HasFlagAppend([flags[0]], flags[1..], flag);
      assert [flags[0]] + flags[1..] == flags;
      assert HasFlag([flags[0]], flag) <==> EqualFold(flags[0], flag) by {
        assert [flags[0]][0] == flags[0];
      }
      assert head != [] ==> head[0] == flags[0] || head[0] == flag;
    }
  }

  /** The flag is set as asked, whatever its spelling was; the other flags stay as they were. */
  lemma StateIsSet(flags: Flags, flag: string, add: bool)
    ensures HasFlag(WithState(flags, flag, add), flag) <==> add
    ensures Others(WithState(flags, flag, add), flag) == Others(flags, flag)
    ensures WithState(WithState(flags, flag, add), flag, add) == WithState(flags, flag, add)
  {
    var tail: Flags := if add && !HasFlag(flags, flag) then [flag] else [];
    SpellOthers(flags, flag, add);
    OthersAppend(Spell(flags, flag, add), tail, flag);
    HasFlagAppend(Spell(flags, flag, add), tail, flag);
    assert tail != [] ==> EqualFold(tail[0], flag);
    SpellAppend(Spell(flags, flag, add), tail, flag, add);
    SpellTwice(flags, flag, add);
  }

  lemma {:induction false} SpellAppend(a: Flags, b: Flags, flag: string, add: bool)
    ensures Spell(a + b, flag, add) == Spell(a, flag, add) + Spell(b, flag, add)
  {
    if a == [] {
      assert a + b == b;
    } else {
      assert (a + b)[1..] == a[1..] + b;
      SpellAppend(a[1..], b, flag, add);
    }
  }

  lemma {:induction false} SpellTwice(flags: Flags, flag: string, add: bool)
    ensures Spell(Spell(flags, flag, add), flag, add) == Spell(flags, flag, add)
  {
    if flags != [] {
      SpellTwice(flags[1..], flag, add);
      var head: Flags := if !EqualFold(flags[0], flag) then [flags[0]] else if add then [flag] else [];
      SpellAppend(head, Spell(flags[1..], flag, add), flag, add);
    }
  }

  // ------------------------------------------------------------ store operations

  datatype RawKey = RawKey(folder: string, uid: string)

  function ParseKey(raw: RawKey): Option<Key> {
    var uid := ParseUid(raw.uid);
    if uid.Some? && Trim(raw.folder) != "" then Some(Key(Trim(raw.folder), uid.value)) else None
  }

  /** One local toggle and its log row: a repeated toggle restarts delivery under the next version. */
  function Toggle(box: Box, k: Key, seen: bool): Box
    requires k in box.messages
  {
    var version := if k in box.pending then box.pending[k].version + 1 else 1;
    box.(messages := box.messages[k := WithState(box.messages[k], SEEN, seen)],
         pending := box.pending[k := Row(seen, version, 0, 0)])
  }

  datatype Queued = Rejected(missing: bool) | Queued(box: Box, updated: nat, folders: set<string>)

  /** The keys one after the other; messages that already are as asked need nothing. */
  function QueueEach(box: Box, keys: seq<RawKey>, seen: bool): Queued
    decreases |keys|
  {
    if keys == [] then Queued(box, 0, {})
    else
      var k := ParseKey(keys[0]);
      if k.None? then Rejected(false)
      else if k.value !in box.messages then Rejected(true)
      else if Seen(box.messages[k.value]) == seen then QueueEach(box, keys[1..], seen)
      else Counted(QueueEach(Toggle(box, k.value, seen), keys[1..], seen), 1, {k.value.folder})
  }

  function Counted(r: Queued, updated: nat, folders: set<string>): Queued {
    if r.Rejected? then r else r.(updated := r.updated + updated, folders := r.folders + folders)
  }

  predicate Within(text: string, part: string) {
    part <= text || (text != "" && Within(text[1..], part))
  }

  /** instr(flags_json, '\Seen'): the exact spelling anywhere in the list. */
  predicate MentionsSeen(flags: Flags) {
    exists i :: 0 <= i < |flags| && Within(flags[i], SEEN)
  }

  /** After a change every spelling of the flag is the given one. */
  lemma {:induction false} SpelledExactly(flags: Flags, flag: string, add: bool)
    ensures forall f :: f in Spell(flags, flag, add) && EqualFold(f, flag) ==> add && f == flag
  {
    if flags != [] { SpelledExactly(flags[1..], flag, add); }
  }

  /** A message marked as read here is counted as read, whatever spelling the server used before. */
  lemma MarkedIsCounted(flags: Flags)
    ensures MentionsSeen(WithState(flags, SEEN, true))
  {
    var next := WithState(flags, SEEN, true);
    StateIsSet(flags, SEEN, true);
    SpelledExactly(flags, SEEN, true);
    var i :| 0 <= i < |next| && EqualFold(next[i], SEEN);
    assert next[i] in next && next[i] == SEEN;
    assert Within(next[i], SEEN);
  }

  function UnreadIn(messages: map<Key, Flags>, folder: string): nat {
    |set k | k in messages && k.folder == folder && !MentionsSeen(messages[k])|
  }

  /** Messages of the folder without the flag, whatever its spelling. */
  function Unseen(messages: map<Key, Flags>, folder: string): set<Key> {
    set k | k in messages && k.folder == folder && !Seen(messages[k])
  }

  /** Read messages the count misses, and unread ones it takes for read. */
  function Missed(messages: map<Key, Flags>, folder: string): set<Key> {
    set k | k in messages && k.folder == folder && Seen(messages[k]) && !MentionsSeen(messages[k])
  }

  function Mistaken(messages: map<Key, Flags>, folder: string): set<Key> {
    set k | k in messages && k.folder == folder && MentionsSeen(messages[k]) && !Seen(messages[k])
  }

  /** The count is the number of unread messages exactly when it misses as many as it mistakes. */
  lemma CountIsExact(messages: map<Key, Flags>, folder: string)
    ensures UnreadIn(messages, folder) == |Unseen(messages, folder)| <==>
      |Missed(messages, folder)| == |Mistaken(messages, folder)|
  {
    var counted := set k | k in messages && k.folder == folder && !MentionsSeen(messages[k]);
    var both := counted * Unseen(messages, folder);
    assert counted == both + Missed(messages, folder);
    assert Unseen(messages, folder) == both + Mistaken(messages, folder);
  }

  /** The flag is spelled exactly wherever it occurs, and no other flag contains it. */
  predicate Plain(flags: Flags) {
    forall i :: 0 <= i < |flags| && (EqualFold(flags[i], SEEN) || Within(flags[i], SEEN)) ==> flags[i] == SEEN
  }

  lemma PlainIsCounted(flags: Flags)
    requires Plain(flags)
    ensures Seen(flags) <==> MentionsSeen(flags)
  {
    assert Within(SEEN, SEEN) && EqualFold(SEEN, SEEN);
    if Seen(flags) {
      var i :| 0 <= i < |flags| && EqualFold(flags[i], SEEN);
      assert Within(flags[i], SEEN);
    }
    if MentionsSeen(flags) {
      var i :| 0 <= i < |flags| && Within(flags[i], SEEN);
      assert EqualFold(flags[i], SEEN);
    }
  }

  lemma {:induction false} SpellOnlyKeepsOrSets(flags: Flags, flag: string, add: bool)
    ensures forall f :: f in Spell(flags, flag, add) ==> f == flag || f in flags
  {
    if flags != [] { SpellOnlyKeepsOrSets(flags[1..], flag, add); }
  }

  lemma PlainIsKept(flags: Flags, add: bool)
    requires Plain(flags)
    ensures Plain(WithState(flags, SEEN, add))
  {
    SpellOnlyKeepsOrSets(flags, SEEN, add);
    var next := WithState(flags, SEEN, add);
    forall i | 0 <= i < |next| && (EqualFold(next[i], SEEN) || Within(next[i], SEEN)) ensures next[i] == SEEN {
      assert next[i] in next;
      if next[i] in flags {
        var j :| 0 <= j < |flags| && flags[j] == next[i];
      }
    }
  }

  ghost predicate AllPlain(messages: map<Key, Flags>) {
    forall k :: k in messages ==> Plain(messages[k])
  }

  /** With plain flags the count is right for every folder. */
  lemma PlainCountIsRight(messages: map<Key, Flags>, folder: string)
    requires AllPlain(messages)
    ensures UnreadIn(messages, folder) == |Unseen(messages, folder)|
  {
    forall k | k in messages ensures Seen(messages[k]) <==> MentionsSeen(messages[k]) { PlainIsCounted(messages[k]); }
    assert Missed(messages, folder) == {} && Mistaken(messages, folder) == {};
    CountIsExact(messages, folder);
  }

  function Recount(box: Box, folders: set<string>): Box {
    box.(unread := map f | f in box.unread :: if f in folders then UnreadIn(box.messages, f) else box.unread[f])
  }

  /** QueueSeenUpdates: all keys or none. */
  function QueueSeen(box: Box, keys: seq<RawKey>, seen: bool): (Box, Queued) {
    var r := QueueEach(box, keys, seen);
    if r.Rejected? then (box, r) else (Recount(r.box, r.folders), r)
  }

  /** A delivery is acknowledged only for the version it was listed with. */
  function Complete(box: Box, k: Key, version: nat): Box {
    if k in box.pending && box.pending[k].version == version then box.(pending := box.pending - {k}) else box
  }

  function Defer(box: Box, k: Key, version: nat, next: int): Box {
    if k in box.pending && box.pending[k].version == version
    then box.(pending := box.pending[k := box.pending[k].(attempts := box.pending[k].attempts + 1, next := next)])
    else box
  }

  /** Flags fetched from the server, with a pending change of ours laid over them. */
  function Overlaid(pending: map<Key, Row>, k: Key, flags: Flags): Flags {
    if k in pending then WithState(flags, SEEN, pending[k].add) else flags
  }

  datatype Item = Item(uid: nat, flags: Flags)

  /** BatchSyncFlags over the cached messages; messages not cached are left alone. */
  function SyncEach(box: Box, folder: string, items: seq<Item>): (Box, nat)
    decreases |items|
  {
    if items == [] then (box, 0)
    else
      var k := Key(folder, items[0].uid);
      var flags := Overlaid(box.pending, k, items[0].flags);
      if k !in box.messages || box.messages[k] == flags then SyncEach(box, folder, items[1..])
      else
        var rest := SyncEach(box.(messages := box.messages[k := flags]), folder, items[1..]);
        (rest.0, rest.1 + 1)
  }

  /** The flags an upsert of fetched messages stores; messages on their way out are skipped. */
  function UpsertEach(box: Box, folder: string, items: seq<Item>, moving: set<nat>): Box
    decreases |items|
  {
    if items == [] then box
    else
      var k := Key(folder, items[0].uid);
      var next := if k.uid in moving then box else
        box.(messages := box.messages[k := Overlaid(box.pending, k, items[0].flags)]);
      UpsertEach(next, folder, items[1..], moving)
  }

  /** Deleting, moving or pruning messages takes their log rows with them. */
  function Remove(box: Box, gone: set<Key>): Box {
    box.(messages := box.messages - gone, pending := box.pending - gone)
  }
}
