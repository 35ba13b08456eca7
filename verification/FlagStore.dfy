/** The flag operations as the store and the sync worker run them. */
module FlagStore {
  import opened Wrappers
  import opened Strings
  import opened FlagModel
  import FlagRuns
  import RetryPolicy

  const FIRST_DELAY := 5
  const MAX_DELAY := 300

  /** Five seconds, doubled with every attempt already made, at most five minutes. */
  function Backoff(attempts: nat): int {
    RetryPolicy.Min(FIRST_DELAY * RetryPolicy.Pow2(attempts), MAX_DELAY)
  }

  method RetryDelay(attempts: nat) returns (delay: int)
    ensures delay == Backoff(attempts) && FIRST_DELAY <= delay <= MAX_DELAY
  {
    delay := FIRST_DELAY;
    var i := 0;
    RetryPolicy.Pow2Grows(0, attempts);
    while i < attempts && delay < MAX_DELAY
      invariant 0 <= i <= attempts && delay == FIRST_DELAY * RetryPolicy.Pow2(i)
    {
      delay := delay * 2;
      i := i + 1;
    }
    RetryPolicy.Pow2Grows(0, i);
    RetryPolicy.Pow2Grows(i, attempts);
    delay := RetryPolicy.Min(delay, MAX_DELAY);
  }

  lemma {:induction false} SpellSnoc(flags: Flags, f: string, flag: string, add: bool)
    ensures Spell(flags + [f], flag, add) == Spell(flags, flag, add) + Spell([f], flag, add)
    ensures HasFlag(flags + [f], flag) <==> HasFlag(flags, flag) || EqualFold(f, flag)
  {
    SpellAppend(flags, [f], flag, add);
    HasFlagAppend(flags, [f], flag);
    assert [f][0] == f;
  }

  /** flagsWithState, and whether the list had to change. */
  method FlagsWithState(flags: Flags, flag: string, add: bool) returns (next: Flags, changed: bool)
    ensures next == WithState(flags, flag, add)
    ensures changed <==> HasFlag(flags, flag) != add
  {
    next := [];
    var found := false;
    var i := 0;
    while i < |flags|
      invariant 0 <= i <= |flags|
      invariant next == Spell(flags[..i], flag, add)
      invariant found <==> HasFlag(flags[..i], flag)
    {
      SpellSnoc(flags[..i], flags[i], flag, add);
      assert flags[..i + 1] == flags[..i] + [flags[i]];
      var current := flags[i];
      i := i + 1;
      if EqualFold(current, flag) {
        found := true;
        if !add { continue; }
        current := flag;
      }
      next := next + [current];
    }
    assert flags[..i] == flags;
    if add && !found {
      next := next + [flag];
    }
    changed := found != add;
  }

  /** What users do to the mirror while the worker is at work. */
  datatype Act = ChooseAct(keys: seq<RawKey>, seen: bool) | DropAct(gone: set<Key>)

  /** What happens before a delivery, and how it ends: accepted, or failed after reaching some of the messages. */
  datatype Fate = Fate(before: seq<Act>, ok: bool, reached: set<Key>)

  /** The IMAP server, as far as the worker changes it. */
  class Mailbox {
    var flags: map<Key, Flags>

    constructor (flags: map<Key, Flags>)
      ensures this.flags == flags
    {
      this.flags := flags;
    }

    method SetMessageFlags(group: set<Key>, add: bool, fate: Fate) returns (ok: bool)
      modifies this
      ensures ok == fate.ok
      ensures flags == FlagRuns.SetFlags(old(flags), if ok then group else group * fate.reached, add)
    {
      flags := map k | k in flags ::
        if k in group && (fate.ok || k in fate.reached) then WithState(flags[k], SEEN, add) else flags[k];
      return fate.ok;
    }
  }

  class Store {
    var messages: map<Key, Flags>
    var pending: map<Key, Row>
    var unread: map<string, nat>

    ghost function View(): Box
      reads this
    {
      Box(messages, pending, unread)
    }

    constructor (messages: map<Key, Flags>, unread: map<string, nat>)
      ensures View() == Box(messages, map[], unread)
    {
      this.messages, this.pending, this.unread := messages, map[], unread;
    }

    /** The statements for one key: nothing when the flag already is as asked. */
    static method AskOne(box: Box, k: Key, seen: bool) returns (next: Box, changed: bool)
      requires k in box.messages
      ensures changed <==> Seen(box.messages[k]) != seen
      ensures next == if changed then Toggle(box, k, seen) else box
      ensures forall d :: AlreadyAsked(box, d, seen) || ParseKey(d) == Some(k) ==> AlreadyAsked(next, d, seen)
    {
      var flags;
      flags, changed := FlagsWithState(box.messages[k], SEEN, seen);
      StateIsSet(box.messages[k], SEEN, seen);
      if !changed { return box, false; }
      var version := if k in box.pending then box.pending[k].version + 1 else 1;
      next := box.(messages := box.messages[k := flags], pending := box.pending[k := Row(seen, version, 0, 0)]);
    }

    static lemma OneKey(box: Box, keys: seq<RawKey>, seen: bool, k: Key, next: Box, changed: bool, updated: nat,
                        folders: set<string>)
      requires keys != [] && ParseKey(keys[0]) == Some(k) && k in box.messages
      requires changed <==> Seen(box.messages[k]) != seen
      requires next == if changed then Toggle(box, k, seen) else box
      ensures Counted(QueueEach(box, keys, seen), updated, folders) ==
        if changed then Counted(QueueEach(next, keys[1..], seen), updated + 1, folders + {k.folder})
        else Counted(QueueEach(next, keys[1..], seen), updated, folders)
    {
      var rest := QueueEach(next, keys[1..], seen);
      if changed && rest.Queued? {
        assert rest.folders + {k.folder} + folders == rest.folders + (folders + {k.folder});
      }
    }

    /** The loop over the keys, on the transaction's copy; keys that repeat are looked at once. */
    static method QueueKeys(start: Box, keys: seq<RawKey>, seen: bool) returns (r: Queued)
      ensures r == QueueEach(start, keys, seen)
    {
      var box := start;
      var updated := 0;
      var folders: set<string> := {};
      var deduped: set<RawKey> := {};
      var i := 0;
      while i < |keys|
        invariant 0 <= i <= |keys|
        invariant QueueEach(start, keys, seen) == Counted(QueueEach(box, keys[i..], seen), updated, folders)
        invariant forall d :: d in deduped ==> AlreadyAsked(box, d, seen)
      {
        var raw := keys[i];
        assert keys[i..][0] == raw && keys[i..][1..] == keys[i + 1..];
        var k := ParseKey(raw);
        if k.None? { return Rejected(false); }
        i := i + 1;
        var dedupe := RawKey(k.value.folder, raw.uid);
        TrimTwice(raw.folder);
        assert ParseKey(dedupe) == k;
        if dedupe in deduped {
          assert AlreadyAsked(box, dedupe, seen);
          OneKey(box, keys[i - 1..], seen, k.value, box, false, updated, folders);
          continue;
        }
        deduped := deduped + {dedupe};
        if k.value !in box.messages { return Rejected(true); }
        var next, changed := AskOne(box, k.value, seen);
        OneKey(box, keys[i - 1..], seen, k.value, next, changed, updated, folders);
        box := next;
        if changed {
          folders := folders + {k.value.folder};
          updated := updated + 1;
        }
      }
      assert keys[i..] == [];
      return Queued(box, updated, folders);
    }

    /** The commit makes the copy visible; a rejected key leaves nothing behind. */
    method QueueSeenUpdates(keys: seq<RawKey>, seen: bool) returns (r: Queued)
      modifies this
      ensures (View(), r) == QueueSeen(old(View()), keys, seen)
    {
      r := QueueKeys(Box(messages, pending, unread), keys, seen);
      if r.Rejected? { return; }
      messages, pending, unread := r.box.messages, r.box.pending, r.box.unread;
      unread := map f | f in unread :: if f in r.folders then UnreadIn(messages, f) else unread[f];
    }

    static ghost predicate AlreadyAsked(box: Box, raw: RawKey, seen: bool) {
      ParseKey(raw).Some? && ParseKey(raw).value in box.messages && Seen(box.messages[ParseKey(raw).value]) == seen
    }

    method CompletePendingFlagUpdate(k: Key, version: nat)
      modifies this`pending
      ensures View() == Complete(old(View()), k, version)
    {
      if k in pending && pending[k].version == version {
        pending := pending - {k};
      }
    }

    method FailPendingFlagUpdate(k: Key, version: nat, next: int)
      modifies this`pending
      ensures View() == Defer(old(View()), k, version, next)
    {
      if k in pending && pending[k].version == version {
        pending := pending[k := pending[k].(attempts := pending[k].attempts + 1, next := next)];
      }
    }

    method BatchSyncFlags(folder: string, items: seq<Item>) returns (changed: nat)
      modifies this`messages
      ensures (View(), changed) == if folder == "" then (old(View()), 0) else SyncEach(old(View()), folder, items)
    {
      changed := 0;
      if folder == "" { return; }
      var i := 0;
      while i < |items|
        invariant 0 <= i <= |items|
        invariant SyncEach(old(View()), folder, items) ==
          (SyncEach(View(), folder, items[i..]).0, SyncEach(View(), folder, items[i..]).1 + changed)
      {
        assert items[i..][0] == items[i] && items[i..][1..] == items[i + 1..];
        var k := Key(folder, items[i].uid);
        var flags := items[i].flags;
        if k in pending {
          var c;
          flags, c := FlagsWithState(flags, SEEN, pending[k].add);
        }
        if k in messages && messages[k] != flags {
          messages := messages[k := flags];
          changed := changed + 1;
        }
        i := i + 1;
      }
      assert items[i..] == [];
    }

    /** UpdateFolderStats, the unread part. */
    method UpdateFolderStats(folder: string)
      modifies this`unread
      ensures View() == Recount(old(View()), {folder})
    {
      var count := UnreadIn(messages, folder);
      if folder in unread && unread[folder] != count {
        unread := unread[folder := count];
      }
      assert unread == Recount(old(View()), {folder}).unread;
    }

    /** Deleting, moving and pruning messages. */
    method RemoveMessages(gone: set<Key>)
      modifies this`messages, this`pending
      ensures View() == Remove(old(View()), gone)
    {
      messages, pending := messages - gone, pending - gone;
    }

    // ------------------------------------------------------------------- flush

    /** A user action is a step of any system that shows this store. */
    method Perform(act: Act, ghost y: FlagRuns.System) returns (ghost step: FlagRuns.Step)
      requires y.box == View()
      modifies this
      ensures step.Choose? || step.Drop?
      ensures var z := FlagRuns.Apply(y, step); z.box == View() && z.server == y.server && z.worker == y.worker
    {
      match act
      case ChooseAct(keys, seen) =>
        var r := QueueSeenUpdates(keys, seen);
        step := FlagRuns.Choose(keys, seen);
      case DropAct(gone) =>
        RemoveMessages(gone);
        step := FlagRuns.Drop(gone);
    }

    method Pause(acts: seq<Act>, ghost y: FlagRuns.System)
      returns (ghost steps: seq<FlagRuns.Step>, ghost z: FlagRuns.System)
      requires y.box == View()
      modifies this
      ensures FlagRuns.Reaches(y, steps, z) && z.box == View() && z.server == y.server && z.worker == y.worker
      ensures acts == [] ==> View() == old(View())
    {
      steps, z := [], y;
      var i := 0;
      while i < |acts|
        invariant 0 <= i <= |acts|
        invariant FlagRuns.Reaches(y, steps, z) && z.box == View() && z.server == y.server && z.worker == y.worker
        invariant acts == [] ==> View() == old(View())
      {
        ghost var step := Perform(acts[i], z);
        FlagRuns.OneStep(z, step);
        FlagRuns.Continue(y, steps, z, [step], FlagRuns.Apply(z, step));
        steps, z := steps + [step], FlagRuns.Apply(z, step);
        i := i + 1;
      }
    }

    /** What an undisturbed round makes of one change: acknowledged, or due again later. */
    static ghost predicate SettledAs(k: Key, row: Row, ok: bool, now: int, after: map<Key, Row>) {
      if ok then k !in after
      else k in after && after[k] == row.(attempts := row.attempts + 1, next := now + Backoff(row.attempts))
    }

    /** The rows of these changes are settled, each by the fate of its group, and the others are as they were. */
    static ghost predicate RoundDone(before: map<Key, Row>, after: map<Key, Row>, done: set<Key>,
                                     updates: map<Key, Row>,
                                     oks: map<(string, bool), bool>, now: int)
    {
      && (forall k ::
            k in done && k in updates && (k.folder, updates[k].add) in oks && k in before && before[k] == updates[k] ==>
            SettledAs(k, updates[k], oks[(k.folder, updates[k].add)], now, after))
      && (forall k :: k !in done ==> (k in after <==> k in before))
      && (forall k :: k in after && k !in done ==> after[k] == before[k])
    }

    static lemma RoundMore(a: map<Key, Row>, b: map<Key, Row>, c: map<Key, Row>, done: set<Key>, group: set<Key>,
                           updates: map<Key, Row>, oks: map<(string, bool), bool>, now: int)
      requires RoundDone(a, b, done, updates, oks, now) && RoundDone(b, c, group, updates, oks, now) && done !! group
      ensures RoundDone(a, c, done + group, updates, oks, now)
    {}

    /** One change of a delivered group: acknowledged, or put off. */
    method SettleOne(k: Key, row: Row, ok: bool, now: int, ghost y: FlagRuns.System) returns (ghost step: FlagRuns.Step)
      requires y.box == View() && y.worker.Flushing? && k in y.worker.listed && y.worker.listed[k] == row
      requires ok ==> k in y.worker.delivered
      modifies this`pending
      ensures FlagRuns.Enabled(y, step)
      ensures FlagRuns.Apply(y, step) == y.(box := View(), worker := Settled(y.worker, {k}))
      ensures forall oks :: (k.folder, row.add) in oks && oks[(k.folder, row.add)] == ok ==>
        RoundDone(old(pending), pending, {k}, map[k := row], oks, now)
    {
      if ok {
        CompletePendingFlagUpdate(k, row.version);
        step := FlagRuns.Ack(k);
      } else {
        var delay := RetryDelay(row.attempts);
        FailPendingFlagUpdate(k, row.version, now + delay);
        step := FlagRuns.Postpone(k, now + delay);
      }
    }

    /** The worker after the changes in done have been settled. */
    static function Settled(w: FlagRuns.Worker, done: set<Key>): FlagRuns.Worker
      requires w.Flushing?
    {
      FlagRuns.Flushing(w.listed - done, w.delivered - done)
    }

    static lemma SettledMore(w: FlagRuns.Worker, done: set<Key>, group: set<Key>)
      requires w.Flushing?
      ensures Settled(Settled(w, done), group) == Settled(w, done + group)
      ensures Settled(w, {}) == w
    {}

    static lemma Remaining(group: set<Key>, done: set<Key>)
      requires done <= group && done != group
      ensures group - done != {}
    {
      assert group == done + (group - done);
    }

    /** User actions, then one change settled. */
    method PauseAndSettle(k: Key, updates: map<Key, Row>, oks: map<(string, bool), bool>, now: int, acts: seq<Act>,
                          ghost y: FlagRuns.System)
      returns (ghost steps: seq<FlagRuns.Step>, ghost z: FlagRuns.System)
      requires k in updates && (k.folder, updates[k].add) in oks
      requires y.box == View() && y.worker.Flushing? && k in y.worker.listed && y.worker.listed[k] == updates[k]
      requires oks[(k.folder, updates[k].add)] ==> k in y.worker.delivered
      modifies this
      ensures FlagRuns.Reaches(y, steps, z) && z.box == View() && z.server == y.server
      ensures z.worker == Settled(y.worker, {k})
      ensures acts == [] ==> RoundDone(old(pending), pending, {k}, updates, oks, now)
    {
      steps, z := Pause(acts, y);
      ghost var before := pending;
      ghost var last := SettleOne(k, updates[k], oks[(k.folder, updates[k].add)], now, z);
      assert RoundDone(before, pending, {k}, map[k := updates[k]], oks, now);
      FlagRuns.OneStep(z, last);
      FlagRuns.Continue(y, steps, z, [last], FlagRuns.Apply(z, last));
      steps, z := steps + [last], FlagRuns.Apply(z, last);
    }

    /** The second half of a group, with user actions before any of its statements. */
    method Settle(group: set<Key>, updates: map<Key, Row>, oks: map<(string, bool), bool>, now: int,
                  pauses: map<Key, seq<Act>>,
                  ghost y: FlagRuns.System)
      returns (ghost steps: seq<FlagRuns.Step>, ghost z: FlagRuns.System)
      requires y.box == View() && y.worker.Flushing? && group <= y.worker.listed.Keys
      requires forall k :: k in group ==>
        k in updates && updates[k] == y.worker.listed[k] && (k.folder, updates[k].add) in oks
      requires forall k :: k in group && oks[(k.folder, updates[k].add)] ==> k in y.worker.delivered
      modifies this
      ensures FlagRuns.Reaches(y, steps, z) && z.box == View() && z.server == y.server
      ensures z.worker == Settled(y.worker, group)
      ensures pauses == map[] ==> RoundDone(old(pending), pending, group, updates, oks, now)
    {
      steps, z := [], y;
      var done: set<Key> := {};
      SettledMore(y.worker, done, done);
      while done != group
        invariant done <= group
        invariant FlagRuns.Reaches(y, steps, z) && z.box == View() && z.server == y.server
        invariant z.worker == Settled(y.worker, done)
        invariant pauses == map[] ==> RoundDone(old(pending), pending, done, updates, oks, now)
        decreases group - done
      {
        Remaining(group, done);
        var k :| k in group - done;
        ghost var before := pending;
        ghost var more, next := PauseAndSettle(k, updates, oks, now, if k in pauses then pauses[k] else [], z);
        FlagRuns.Continue(y, steps, z, more, next);
        steps, z := steps + more, next;
        SettledMore(y.worker, done, {k});
        if pauses == map[] { RoundMore(old(pending), before, pending, done, {k}, updates, oks, now); }
        done := done + {k};
      }
    }

    /** One group of changes with the same folder and state: user actions, the delivery, then the bookkeeping. */
    method DeliverGroup(client: Mailbox, group: set<Key>, updates: map<Key, Row>, add: bool, fate: Fate,
                        oks: map<(string, bool), bool>, now: int, pauses: map<Key, seq<Act>>, ghost y: FlagRuns.System)
      returns (ghost steps: seq<FlagRuns.Step>, ghost z: FlagRuns.System)
      requires y.box == View() && y.server == client.flags && y.worker.Flushing?
      requires group <= y.worker.listed.Keys && y.worker.delivered == {}
      requires forall k :: k in group ==> k in updates && updates[k] == y.worker.listed[k] && updates[k].add == add
      requires forall k :: k in group ==> (k.folder, add) in oks && oks[(k.folder, add)] == fate.ok
      modifies this, client
      ensures FlagRuns.Reaches(y, steps, z) && z.box == View() && z.server == client.flags
      ensures z.worker == Settled(y.worker, group)
      ensures client.flags == FlagRuns.SetFlags(old(client.flags), if fate.ok then group else group * fate.reached, add)
      ensures pauses == map[] && fate.before == [] ==> RoundDone(old(pending), pending, group, updates, oks, now)
    {
      steps, z := Pause(fate.before, y);
      var ok := client.SetMessageFlags(group, add, fate);
      ghost var deliver := FlagRuns.Deliver(group, add, ok, if ok then group else group * fate.reached);
      FlagRuns.OneStep(z, deliver);
      FlagRuns.Continue(y, steps, z, [deliver], FlagRuns.Apply(z, deliver));
      steps, z := steps + [deliver], FlagRuns.Apply(z, deliver);
      ghost var rest, end := Settle(group, updates, oks, now, pauses, z);
      FlagRuns.Continue(y, steps, z, rest, end);
      steps, z := steps + rest, end;
      assert z.worker.delivered == Settled(y.worker, group).delivered;
    }

    /** At the server every change of an accepted group has arrived, and messages outside are as they were. */
    static ghost predicate Arrived(before: map<Key, Flags>, after: map<Key, Flags>, done: set<Key>,
                                   updates: map<Key, Row>,
                                   oks: map<(string, bool), bool>)
    {
      && after.Keys == before.Keys && (forall k :: k in after && k !in done ==> after[k] == before[k])
      && forall k ::
           k in done && k in after && k in updates && (k.folder, updates[k].add) in oks
           && oks[(k.folder, updates[k].add)] ==>
           Seen(after[k]) == updates[k].add
    }

    static lemma ArrivedMore(a: map<Key, Flags>, b: map<Key, Flags>, done: set<Key>, group: set<Key>,
                             updates: map<Key, Row>,
                             oks: map<(string, bool), bool>, add: bool, fate: Fate)
      requires Arrived(a, b, done, updates, oks) && done !! group
      requires forall k :: k in group ==>
        k in updates && updates[k].add == add && (k.folder, add) in oks && oks[(k.folder, add)] == fate.ok
      ensures var c := FlagRuns.SetFlags(b, if fate.ok then group else group * fate.reached, add);
        Arrived(a, c, done + group, updates, oks)
    {
      forall k | k in b ensures Seen(WithState(b[k], SEEN, add)) == add { StateIsSet(b[k], SEEN, add); }
    }

    /** The remaining changes that share folder and state with one of them. */
    static method NextGroup(rest: set<Key>, updates: map<Key, Row>) returns (group: set<Key>, folder: string, add: bool)
      requires rest != {} && rest <= updates.Keys
      ensures group != {} && group <= rest && forall k :: k in group ==> k.folder == folder && updates[k].add == add
      ensures exists k :: k in rest && k.folder == folder && updates[k].add == add
    {
      var first :| first in rest;
      folder, add := first.folder, updates[first].add;
      group := set k | k in rest && k.folder == folder && updates[k].add == add;
      assert first in group;
    }

    /**
     flushPendingFlags, with user actions before each of its statements: a valid run of the
     worker and the users. Undisturbed, each listed change is delivered, or kept and put off.
     */
    method FlushPendingFlags(client: Mailbox, listed: set<Key>, now: int, fates: map<(string, bool), Fate>,
                             pauses: map<Key, seq<Act>>, ghost y: FlagRuns.System)
      returns (ghost steps: seq<FlagRuns.Step>, ghost z: FlagRuns.System)
      requires y.box == View() && y.server == client.flags && y.worker.Idle? && listed <= pending.Keys
      requires forall k :: k in listed ==> (k.folder, pending[k].add) in fates
      modifies this, client
      ensures FlagRuns.Reaches(y, steps, z) && z.box == View() && z.server == client.flags && z.worker.Idle?
      ensures Arrived(old(client.flags), client.flags, listed, old(pending), Oks(fates))
      ensures Undisturbed(fates, pauses) ==> RoundDone(old(pending), pending, listed, old(pending), Oks(fates), now)
    {
      var oks := Oks(fates);
      var updates := pending;
      FlagRuns.OneStep(y, FlagRuns.List(listed));
      steps, z := [FlagRuns.List(listed)], FlagRuns.Apply(y, FlagRuns.List(listed));
      ghost var begun := z.worker;
      var done: set<Key> := {};
      SettledMore(begun, done, done);
      while done != listed
        invariant done <= listed
        invariant FlagRuns.Reaches(y, steps, z) && z.box == View() && z.server == client.flags
        invariant z.worker == Settled(begun, done)
        invariant Arrived(old(client.flags), client.flags, done, updates, oks)
        invariant Undisturbed(fates, pauses) ==> RoundDone(updates, pending, done, updates, oks, now)
        decreases listed - done
      {
        Remaining(listed, done);
        var group, folder, add := NextGroup(listed - done, updates);
        var fate := fates[(folder, add)];
        ghost var server, rows := client.flags, pending;
        ghost var more, next := DeliverGroup(client, group, updates, add, fate, oks, now, pauses, z);
        FlagRuns.Continue(y, steps, z, more, next);
        steps, z := steps + more, next;
        ArrivedMore(old(client.flags), server, done, group, updates, oks, add, fate);
        if Undisturbed(fates, pauses) { RoundMore(updates, rows, pending, done, group, updates, oks, now); }
        SettledMore(begun, done, group);
        done := done + group;
      }
      FlagRuns.OneStep(z, FlagRuns.Stop);
      FlagRuns.Continue(y, steps, z, [FlagRuns.Stop], FlagRuns.Apply(z, FlagRuns.Stop));
      steps, z := steps + [FlagRuns.Stop], FlagRuns.Apply(z, FlagRuns.Stop);
    }

    static function Oks(fates: map<(string, bool), Fate>): map<(string, bool), bool> {
      map g | g in fates :: fates[g].ok
    }

    static predicate Undisturbed(fates: map<(string, bool), Fate>, pauses: map<Key, seq<Act>>) {
      pauses == map[] && forall g :: g in fates ==> fates[g].before == []
    }
  }

  lemma {:induction false} TrimLeftClean(s: string)
    ensures TrimLeft(s) == "" || !IsSpace(TrimLeft(s)[0])
  {
    if s != "" && IsSpace(s[0]) { TrimLeftClean(s[1..]); }
  }

  lemma {:induction false} TrimRightClean(s: string)
    ensures TrimRight(s) == "" || !IsSpace(TrimRight(s)[|TrimRight(s)| - 1])
    ensures TrimRight(s) <= s
  {
    if s != "" && IsSpace(s[|s| - 1]) { TrimRightClean(s[..|s| - 1]); }
  }

  lemma TrimTwice(s: string)
    ensures Trim(Trim(s)) == Trim(s)
  {
    TrimLeftClean(s);
    TrimRightClean(TrimLeft(s));
  }
}
