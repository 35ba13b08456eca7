/**
 One sync worker per account, the user, and the server: the worker lists due
 changes, delivers them group by group, acknowledges or defers each, and at other
 times pulls flags and messages. User actions fall between any two worker steps.
 */
module FlagRuns {
  import opened Wrappers
  import opened Strings
  import opened FlagModel

  /** What the worker holds: a listed snapshot with the delivered keys, or fetched items of one folder. */
  datatype Worker =
    | Idle
    | Flushing(listed: map<Key, Row>, delivered: set<Key>)
    | Pulled(folder: string, items: seq<Item>)

  /** known: every message number the server ever assigned; choice: the user's last choice for each mirrored message. */
  datatype System = System(box: Box, server: map<Key, Flags>, worker: Worker, known: set<Key>, choice: map<Key, bool>)

  datatype Step =
    | Choose(keys: seq<RawKey>, seen: bool)              // QueueSeenUpdates
    | Drop(gone: set<Key>)                               // delete, move, prune
    | Arrive(k: Key, flags: Flags)                       // new mail on the server
    | Expunge(gone: set<Key>)                            // mail removed on the server
    | List(due: set<Key>)                                // ListPendingFlagUpdates, any part of the log
    | Deliver(group: set<Key>, add: bool, ok: bool, reached: set<Key>)   // SetMessageFlags
    | Ack(k: Key)
    | Postpone(k: Key, next: int)
    | Fetch(folder: string, items: seq<Item>)
    | Sync                                               // BatchSyncFlags
    | Upsert(moving: set<nat>)                           // UpsertMessages
    | Stats(folder: string)                              // UpdateFolderStats
    | Stop                                               // the worker ends a round, or crashes

  /** The keys a choice names, when it is not refused. */
  function Chosen(keys: seq<RawKey>): set<Key> {
    set i | 0 <= i < |keys| && ParseKey(keys[i]).Some? :: ParseKey(keys[i]).value
  }

  /** Numbers are not assigned twice (section 2.3.1.1 of RFC 3501); a fetch returns what the server has. */
  predicate Enabled(y: System, step: Step) {
    match step
    case Arrive(k, _) => k !in y.known
    case List(due) => y.worker.Idle? && due <= y.box.pending.Keys
    case Deliver(group, add, ok, reached) =>
      && y.worker.Flushing? && group <= y.worker.listed.Keys - y.worker.delivered && reached <= group
      && (forall k :: k in group ==> y.worker.listed[k].add == add)
      && (ok ==> reached == group)
    case Ack(k) => y.worker.Flushing? && k in y.worker.delivered && k in y.worker.listed
    case Postpone(k, _) => y.worker.Flushing? && k in y.worker.listed
    case Fetch(folder, items) =>
      y.worker.Idle? && forall i :: 0 <= i < |items| ==>
        Key(folder, items[i].uid) in y.server && y.server[Key(folder, items[i].uid)] == items[i].flags
    case Sync => y.worker.Pulled?
    case Upsert(_) => y.worker.Pulled?
    case _ => true
  }

  /** The server sets or clears the flag on the messages it still has. */
  function SetFlags(server: map<Key, Flags>, reached: set<Key>, add: bool): map<Key, Flags> {
    map k | k in server :: if k in reached then WithState(server[k], SEEN, add) else server[k]
  }

  function Apply(y: System, step: Step): System
    requires Enabled(y, step)
  {
    match step
    case Choose(keys, seen) =>
      var r := QueueSeen(y.box, keys, seen);
      if r.1.Rejected? then y
      else y.(box := r.0, choice :=
                map k | k in y.choice.Keys + Chosen(keys) :: if k in Chosen(keys) then seen else y.choice[k])
    case Drop(gone) => y.(box := Remove(y.box, gone), choice := y.choice - gone)
    case Arrive(k, flags) => y.(server := y.server[k := flags], known := y.known + {k})
    case Expunge(gone) => y.(server := y.server - gone)
    case List(due) => y.(worker := Flushing(map k | k in due :: y.box.pending[k], {}))
    case Deliver(group, add, ok, reached) =>
      y.(server := SetFlags(y.server, reached, add),
         worker := y.worker.(delivered := if ok then y.worker.delivered + group else y.worker.delivered))
    case Ack(k) =>
      y.(box := Complete(y.box, k, y.worker.listed[k].version),
         worker := Flushing(y.worker.listed - {k}, y.worker.delivered - {k}))
    case Postpone(k, next) =>
      y.(box := Defer(y.box, k, y.worker.listed[k].version, next),
         worker := Flushing(y.worker.listed - {k}, y.worker.delivered - {k}))
    case Fetch(folder, items) => y.(worker := Pulled(folder, items))
    case Sync => y.(box := SyncEach(y.box, y.worker.folder, y.worker.items).0, worker := Idle)
    case Upsert(moving) => y.(box := UpsertEach(y.box, y.worker.folder, y.worker.items, moving), worker := Idle)
    case Stats(folder) => y.(box := Recount(y.box, {folder}))
    case Stop => y.(worker := Idle)
  }

  predicate ValidRun(y: System, steps: seq<Step>)
    decreases |steps|
  {
    steps == [] || (Enabled(y, steps[0]) && ValidRun(Apply(y, steps[0]), steps[1..]))
  }

  function RunSteps(y: System, steps: seq<Step>): System
    requires ValidRun(y, steps)
    decreases |steps|
  {
    if steps == [] then y else RunSteps(Apply(y, steps[0]), steps[1..])
  }

  /** The steps are a run from one state to the other. */
  ghost predicate Reaches(y: System, steps: seq<Step>, z: System) {
    ValidRun(y, steps) && RunSteps(y, steps) == z
  }

  /** One run after another. */
  lemma {:induction false} Continue(y: System, a: seq<Step>, z: System, b: seq<Step>, end: System)
    requires Reaches(y, a, z) && Reaches(z, b, end)
    ensures Reaches(y, a + b, end)
    decreases |a|
  {
    if a == [] {
      assert a + b == b;
    } else {
      assert (a + b)[1..] == a[1..] + b;
      Continue(Apply(y, a[0]), a[1..], z, b, end);
    }
  }

  lemma OneStep(y: System, step: Step)
    requires Enabled(y, step)
    ensures Reaches(y, [step], Apply(y, step))
  {
    assert [step][1..] == [];
  }

  // ---------------------------------------------------------------- invariant

  /** A pending change is already visible in the mirror. */
  ghost predicate PendingShown(box: Box) {
    forall k :: k in box.pending ==> k in box.messages && Seen(box.messages[k]) == box.pending[k].add
  }

  /** Without a pending change the mirror shows what the server has. */
  ghost predicate MirrorsServer(box: Box, server: map<Key, Flags>) {
    forall k :: k in box.messages && k in server && k !in box.pending ==> Seen(box.messages[k]) == Seen(server[k])
  }

  /** The mirror shows the user's last choice. */
  ghost predicate ChoiceShown(box: Box, choice: map<Key, bool>) {
    forall k :: k in choice ==> k in box.messages && Seen(box.messages[k]) == choice[k]
  }

  /** A listed row is still there, the same or newer, unless its message is gone; delivered keys reached the server. */
  ghost predicate ListedOk(box: Box, server: map<Key, Flags>, listed: map<Key, Row>, delivered: set<Key>) {
    && (forall k :: k in listed && k in box.messages ==>
          && k in box.pending && box.pending[k].version >= listed[k].version
          && (box.pending[k].version == listed[k].version ==> box.pending[k].add == listed[k].add))
    && (forall k :: k in delivered && k in listed && k in server ==> Seen(server[k]) == listed[k].add)
  }

  /** A fetched item still agrees with the server, and with a mirrored message that has no pending change. */
  ghost predicate ItemsOk(box: Box, server: map<Key, Flags>, known: set<Key>, folder: string, items: seq<Item>) {
    forall i :: 0 <= i < |items| ==>
      var k := Key(folder, items[i].uid);
      && k in known
      && (k in server ==> Seen(items[i].flags) == Seen(server[k]))
      && (k in box.messages && k !in box.pending ==> Seen(items[i].flags) == Seen(box.messages[k]))
  }

  ghost predicate WorkerOk(box: Box, server: map<Key, Flags>, known: set<Key>, w: Worker) {
    match w
    case Idle => true
    case Flushing(listed, delivered) => listed.Keys <= known && ListedOk(box, server, listed, delivered)
    case Pulled(folder, items) => ItemsOk(box, server, known, folder, items)
  }

  ghost predicate Ok(y: System) {
    && y.box.messages.Keys <= y.known && y.server.Keys <= y.known
    && PendingShown(y.box) && MirrorsServer(y.box, y.server) && ChoiceShown(y.box, y.choice)
    && WorkerOk(y.box, y.server, y.known, y.worker)
  }

  // ------------------------------------------------------- effect of a choice

  /** What toggling does to one message: unchanged, or toggled with a newer row. */
  ghost predicate Toggled(a: Box, b: Box, k: Key, seen: bool) {
    && k in a.messages && k in b.messages && k in b.pending
    && Seen(b.messages[k]) == seen && b.pending[k].add == seen
    && (k in a.pending ==> b.pending[k].version > a.pending[k].version)
  }

  ghost predicate SameAt(a: Box, b: Box, k: Key) {
    && (k in a.messages <==> k in b.messages) && (k in a.pending <==> k in b.pending)
    && (k in a.messages ==> a.messages[k] == b.messages[k])
    && (k in a.pending ==> a.pending[k] == b.pending[k])
  }

  ghost predicate Chose(a: Box, b: Box, seen: bool) {
    forall k: Key :: SameAt(a, b, k) || Toggled(a, b, k, seen)
  }

  lemma ToggleChose(box: Box, k: Key, seen: bool)
    requires k in box.messages
    ensures Chose(box, Toggle(box, k, seen), seen)
  {
    StateIsSet(box.messages[k], SEEN, seen);
    var z := Toggle(box, k, seen);
    forall j: Key ensures SameAt(box, z, j) || Toggled(box, z, j, seen) {
      if j == k { assert Toggled(box, z, j, seen); }
    }
  }

  lemma ChoseTransitive(a: Box, b: Box, c: Box, seen: bool)
    requires Chose(a, b, seen) && Chose(b, c, seen)
    ensures Chose(a, c, seen)
  {
    forall k: Key ensures SameAt(a, c, k) || Toggled(a, c, k, seen) {
      assert SameAt(a, b, k) || Toggled(a, b, k, seen);
      assert SameAt(b, c, k) || Toggled(b, c, k, seen);
    }
  }

  /** Every named message ends up as asked. */
  ghost predicate AllAsked(b: Box, keys: seq<RawKey>, seen: bool) {
    forall i :: 0 <= i < |keys| ==>
      ParseKey(keys[i]).Some? && ParseKey(keys[i]).value in b.messages
        && Seen(b.messages[ParseKey(keys[i]).value]) == seen
  }

  lemma {:induction false} ChoiceTakesEffect(box: Box, keys: seq<RawKey>, seen: bool)
    requires QueueEach(box, keys, seen).Queued?
    ensures var z := QueueEach(box, keys, seen).box; Chose(box, z, seen) && AllAsked(z, keys, seen)
    decreases |keys|
  {
    if keys == [] {
    } else {
      var k := ParseKey(keys[0]).value;
      var next := if Seen(box.messages[k]) == seen then box else Toggle(box, k, seen);
      if next != box { ToggleChose(box, k, seen); }
      var z := QueueEach(next, keys[1..], seen).box;
      ChoiceTakesEffect(next, keys[1..], seen);
      ChoseTransitive(box, next, z, seen);
      assert Seen(next.messages[k]) == seen by {
        if next != box {
          assert Toggled(box, next, k, seen) || SameAt(box, next, k);
          StateIsSet(box.messages[k], SEEN, seen);
        }
      }
      assert SameAt(next, z, k) || Toggled(next, z, k, seen);
      assert forall i :: 1 <= i < |keys| ==> keys[i] == keys[1..][i - 1];
    }
  }

  // --------------------------------------------------- effect of pulled items

  /** After a pull each message is as before, or carries a fetched item with our pending change laid over it. */
  ghost predicate Pulls(a: Box, b: Box, folder: string, items: seq<Item>) {
    && a.pending == b.pending && a.messages.Keys <= b.messages.Keys
    && forall k :: k in b.messages ==>
         (k in a.messages && a.messages[k] == b.messages[k]) || FromItem(a, b.messages[k], k, folder, items)
  }

  ghost predicate FromItem(a: Box, flags: Flags, k: Key, folder: string, items: seq<Item>) {
    exists i :: 0 <= i < |items| && k == Key(folder, items[i].uid) && flags == Overlaid(a.pending, k, items[i].flags)
  }

  lemma PullsFirst(a: Box, b: Box, c: Box, folder: string, items: seq<Item>)
    requires items != [] && Pulls(b, c, folder, items[1..]) && a.pending == b.pending
    requires a.messages.Keys <= b.messages.Keys
    requires var k := Key(folder, items[0].uid);
      && (forall j :: j in b.messages && j != k ==> j in a.messages && a.messages[j] == b.messages[j])
      && (k in b.messages ==>
           (k in a.messages && a.messages[k] == b.messages[k])
           || b.messages[k] == Overlaid(a.pending, k, items[0].flags))
    ensures Pulls(a, c, folder, items)
  {
    forall j | j in c.messages
      ensures (j in a.messages && a.messages[j] == c.messages[j]) || FromItem(a, c.messages[j], j, folder, items)
    {
      if FromItem(b, c.messages[j], j, folder, items[1..]) {
        var i :| 0 <= i < |items[1..]| && j == Key(folder, items[1..][i].uid)
          && c.messages[j] == Overlaid(b.pending, j, items[1..][i].flags);
        assert items[1..][i] == items[i + 1];
      }
    }
  }

  lemma {:induction false} SyncPulls(box: Box, folder: string, items: seq<Item>)
    ensures Pulls(box, SyncEach(box, folder, items).0, folder, items)
    decreases |items|
  {
    if items != [] {
      var k := Key(folder, items[0].uid);
      var flags := Overlaid(box.pending, k, items[0].flags);
      var next := if k !in box.messages || box.messages[k] == flags then box else
        box.(messages := box.messages[k := flags]);
      SyncPulls(next, folder, items[1..]);
      PullsFirst(box, next, SyncEach(next, folder, items[1..]).0, folder, items);
    }
  }

  lemma {:induction false} UpsertPulls(box: Box, folder: string, items: seq<Item>, moving: set<nat>)
    ensures Pulls(box, UpsertEach(box, folder, items, moving), folder, items)
    decreases |items|
  {
    if items != [] {
      var k := Key(folder, items[0].uid);
      var next := if k.uid in moving then box else
        box.(messages := box.messages[k := Overlaid(box.pending, k, items[0].flags)]);
      UpsertPulls(next, folder, items[1..], moving);
      PullsFirst(box, next, UpsertEach(next, folder, items[1..], moving), folder, items);
    }
  }

  // ------------------------------------------------------------ preservation

  lemma ChooseKeeps(y: System, keys: seq<RawKey>, seen: bool)
    requires Ok(y)
    ensures Ok(Apply(y, Choose(keys, seen)))
  {
    var r := QueueEach(y.box, keys, seen);
    if r.Queued? {
      ChoiceTakesEffect(y.box, keys, seen);
      var z := Apply(y, Choose(keys, seen));
      assert z.box.messages == r.box.messages && z.box.pending == r.box.pending;
      forall k | k in z.choice ensures k in z.box.messages && Seen(z.box.messages[k]) == z.choice[k] {
        if k in Chosen(keys) {
          var i :| 0 <= i < |keys| && ParseKey(keys[i]).Some? && ParseKey(keys[i]).value == k;
          assert AllAsked(r.box, keys, seen);
        } else {
          assert SameAt(y.box, r.box, k) || Toggled(y.box, r.box, k, seen);
          NotTouched(y.box, keys, seen, k);
        }
      }
      ChoseKeeps(y.box, r.box, seen, y.server, y.known, y.worker);
      assert ListedOk(z.box, z.server, map[], {});
    }
  }

  /** A choice touches only messages that it names and that are not yet as asked. */
  lemma {:induction false} NotTouched(box: Box, keys: seq<RawKey>, seen: bool, k: Key)
    requires QueueEach(box, keys, seen).Queued?
    requires k !in Chosen(keys) || (k in box.messages && Seen(box.messages[k]) == seen)
    ensures SameAt(box, QueueEach(box, keys, seen).box, k)
    decreases |keys|
  {
    if keys != [] {
      var j := ParseKey(keys[0]).value;
      assert j in Chosen(keys);
      forall i | 0 <= i < |keys[1..]| && ParseKey(keys[1..][i]).Some?
        ensures ParseKey(keys[1..][i]).value in Chosen(keys)
      {
        assert keys[1..][i] == keys[i + 1];
      }
      var next := if Seen(box.messages[j]) == seen then box else Toggle(box, j, seen);
      assert SameAt(box, next, k);
      NotTouched(next, keys[1..], seen, k);
    }
  }

  lemma ChoseKeeps(a: Box, b: Box, seen: bool, server: map<Key, Flags>, known: set<Key>, w: Worker)
    requires Chose(a, b, seen) && PendingShown(a) && MirrorsServer(a, server) && WorkerOk(a, server, known, w)
    ensures PendingShown(b) && MirrorsServer(b, server) && WorkerOk(b, server, known, w)
    ensures b.messages.Keys == a.messages.Keys
  {
    forall k: Key
      ensures k in a.messages <==> k in b.messages
      ensures k in b.pending ==> k in b.messages && Seen(b.messages[k]) == b.pending[k].add
      ensures k in b.messages && k !in b.pending ==> k !in a.pending && a.messages[k] == b.messages[k]
      ensures k in a.pending ==>
        k in b.pending && (b.pending[k] == a.pending[k] || b.pending[k].version > a.pending[k].version)
    {
      assert SameAt(a, b, k) || Toggled(a, b, k, seen);
    }
  }

  lemma PullKeeps(y: System, b: Box, folder: string, items: seq<Item>)
    requires Ok(y) && Pulls(y.box, b, folder, items) && ItemsOk(y.box, y.server, y.known, folder, items)
    ensures Ok(y.(box := b, worker := Idle))
  {
    forall k | k in b.messages
      ensures k in y.known
      ensures k in b.pending ==> Seen(b.messages[k]) == b.pending[k].add
      ensures k in y.server && k !in b.pending ==> Seen(b.messages[k]) == Seen(y.server[k])
      ensures k in y.choice ==> Seen(b.messages[k]) == y.choice[k]
    {
      if !(k in y.box.messages && y.box.messages[k] == b.messages[k]) {
        var i :| 0 <= i < |items| && k == Key(folder, items[i].uid)
          && b.messages[k] == Overlaid(y.box.pending, k, items[i].flags);
        if k in b.pending { StateIsSet(items[i].flags, SEEN, b.pending[k].add); }
      }
    }
  }

  lemma DeliverKeeps(y: System, group: set<Key>, add: bool, ok: bool, reached: set<Key>)
    requires Ok(y) && Enabled(y, Deliver(group, add, ok, reached))
    ensures Ok(Apply(y, Deliver(group, add, ok, reached)))
  {
    var z := Apply(y, Deliver(group, add, ok, reached));
    forall k | k in z.server ensures Seen(z.server[k]) == if k in reached then add else Seen(y.server[k]) {
      StateIsSet(y.server[k], SEEN, add);
    }
    assert MirrorsServer(z.box, z.server);
  }

  lemma RemoveKeeps(y: System, gone: set<Key>)
    requires Ok(y)
    ensures Ok(Apply(y, Drop(gone))) && Ok(Apply(y, Expunge(gone)))
  {}

  lemma ArriveKeeps(y: System, k: Key, flags: Flags)
    requires Ok(y) && k !in y.known
    ensures Ok(Apply(y, Arrive(k, flags)))
  {}

  /** An acknowledgement that removes the row leaves mirror and server in agreement. */
  lemma AckKeeps(y: System, k: Key)
    requires Ok(y) && Enabled(y, Ack(k))
    ensures Ok(Apply(y, Ack(k)))
  {
    var z := Apply(y, Ack(k));
    assert MirrorsServer(z.box, z.server);
    assert PendingShown(z.box);
    assert ListedOk(z.box, z.server, z.worker.listed, z.worker.delivered);
  }

  lemma PostponeKeeps(y: System, k: Key, next: int)
    requires Ok(y) && Enabled(y, Postpone(k, next))
    ensures Ok(Apply(y, Postpone(k, next)))
  {
    var z := Apply(y, Postpone(k, next));
    assert MirrorsServer(z.box, z.server);
    assert PendingShown(z.box);
    assert ListedOk(z.box, z.server, z.worker.listed, z.worker.delivered);
  }

  lemma StepKeeps(y: System, step: Step)
    requires Ok(y) && Enabled(y, step)
    ensures Ok(Apply(y, step))
  {
    match step
    case Choose(keys, seen) => ChooseKeeps(y, keys, seen);
    case Drop(gone) => RemoveKeeps(y, gone);
    case Expunge(gone) => RemoveKeeps(y, gone);
    case Arrive(k, flags) => ArriveKeeps(y, k, flags);
    case Deliver(group, add, ok, reached) => DeliverKeeps(y, group, add, ok, reached);
    case Ack(k) => AckKeeps(y, k);
    case Postpone(k, next) => PostponeKeeps(y, k, next);
    case Sync =>
      SyncPulls(y.box, y.worker.folder, y.worker.items);
      var r := SyncEach(y.box, y.worker.folder, y.worker.items).0;
      PullKeeps(y, r, y.worker.folder, y.worker.items);
    case Upsert(moving) =>
      UpsertPulls(y.box, y.worker.folder, y.worker.items, moving);
      var r := UpsertEach(y.box, y.worker.folder, y.worker.items, moving);
      PullKeeps(y, r, y.worker.folder, y.worker.items);
    case _ =>
  }

  /** An empty mirror of any mailbox. */
  predicate Start(y: System) {
    && y.box.messages == map[] && y.box.pending == map[] && y.choice == map[]
    && y.worker.Idle? && y.server.Keys <= y.known
  }

  lemma {:induction false} RunKeeps(y: System, steps: seq<Step>)
    requires Ok(y) && ValidRun(y, steps)
    ensures Ok(RunSteps(y, steps))
    decreases |steps|
  {
    if steps != [] {
      StepKeeps(y, steps[0]);
      RunKeeps(Apply(y, steps[0]), steps[1..]);
    }
  }

  /**
   No choice is lost: after any run the mirror shows the last choice made for each
   message, and the server has it too unless the log still holds exactly that choice.
   */
  lemma NoChoiceIsLost(y: System, steps: seq<Step>)
    requires Start(y) && ValidRun(y, steps)
    ensures var z := RunSteps(y, steps);
      && (forall k :: k in z.choice ==> k in z.box.messages && Seen(z.box.messages[k]) == z.choice[k])
      && (forall k :: k in z.choice && k in z.box.pending ==> z.box.pending[k].add == z.choice[k])
      && (forall k :: k in z.choice && k in z.server && k !in z.box.pending ==> Seen(z.server[k]) == z.choice[k])
  {
    RunKeeps(y, steps);
  }

  /** Log and mirror: a pending change shows locally, and without one mirror and server agree. */
  lemma LogAndMirrorAgree(y: System, steps: seq<Step>)
    requires Start(y) && ValidRun(y, steps)
    ensures var z := RunSteps(y, steps); PendingShown(z.box) && MirrorsServer(z.box, z.server)
  {
    RunKeeps(y, steps);
  }

  /**
   A delivery that was listed before a choice is acknowledged, or put off, without any effect
   exactly when the choice changed the message: the newer row stays.
   */
  lemma StaleDeliveryIsIgnored(box: Box, keys: seq<RawKey>, seen: bool, k: Key, next: int)
    requires QueueEach(box, keys, seen).Queued? && k in box.pending && k in box.messages
    ensures var z := QueueSeen(box, keys, seen).0;
      var version := box.pending[k].version;
      var changed := k in Chosen(keys) && Seen(box.messages[k]) != seen;
      (Complete(z, k, version) == z <==> changed) && (Defer(z, k, version, next) == z <==> changed)
  {
    var r := QueueEach(box, keys, seen).box;
    ChoiceTakesEffect(box, keys, seen);
    if k in Chosen(keys) && Seen(box.messages[k]) != seen {
      var i :| 0 <= i < |keys| && ParseKey(keys[i]).Some? && ParseKey(keys[i]).value == k;
      assert Seen(r.messages[k]) == seen;
      assert SameAt(box, r, k) || Toggled(box, r, k, seen);
    } else {
      NotTouched(box, keys, seen, k);
    }
  }

  // ------------------------------------------------------------- unread counts

  /** Every flag list anywhere is plain. */
  ghost predicate PlainSystem(y: System) {
    && AllPlain(y.box.messages) && AllPlain(y.server)
    && (y.worker.Pulled? ==> forall i :: 0 <= i < |y.worker.items| ==> Plain(y.worker.items[i].flags))
  }

  /** Mail arrives with plain flags; every other list comes from those. */
  predicate PlainStep(step: Step) { step.Arrive? ==> Plain(step.flags) }

  lemma {:induction false} ChoicesStayPlain(box: Box, keys: seq<RawKey>, seen: bool)
    requires AllPlain(box.messages) && QueueEach(box, keys, seen).Queued?
    ensures AllPlain(QueueEach(box, keys, seen).box.messages)
    decreases |keys|
  {
    if keys != [] {
      var k := ParseKey(keys[0]).value;
      PlainIsKept(box.messages[k], seen);
      ChoicesStayPlain(if Seen(box.messages[k]) == seen then box else Toggle(box, k, seen), keys[1..], seen);
    }
  }

  lemma PullsStayPlain(a: Box, b: Box, folder: string, items: seq<Item>)
    requires Pulls(a, b, folder, items) && AllPlain(a.messages)
    requires forall i :: 0 <= i < |items| ==> Plain(items[i].flags)
    ensures AllPlain(b.messages)
  {
    forall k | k in b.messages ensures Plain(b.messages[k]) {
      if !(k in a.messages && a.messages[k] == b.messages[k]) {
        var i :| 0 <= i < |items| && k == Key(folder, items[i].uid)
          && b.messages[k] == Overlaid(a.pending, k, items[i].flags);
        if k in a.pending { PlainIsKept(items[i].flags, a.pending[k].add); }
      }
    }
  }

  lemma StepStaysPlain(y: System, step: Step)
    requires PlainSystem(y) && Enabled(y, step) && PlainStep(step)
    ensures PlainSystem(Apply(y, step))
  {
    match step
    case Choose(keys, seen) => if QueueEach(y.box, keys, seen).Queued? { ChoicesStayPlain(y.box, keys, seen); }
    case Deliver(group, add, ok, reached) =>
      forall k | k in y.server ensures Plain(WithState(y.server[k], SEEN, add)) { PlainIsKept(y.server[k], add); }
    case Sync =>
      SyncPulls(y.box, y.worker.folder, y.worker.items);
      PullsStayPlain(y.box, SyncEach(y.box, y.worker.folder, y.worker.items).0, y.worker.folder, y.worker.items);
    case Upsert(moving) =>
      UpsertPulls(y.box, y.worker.folder, y.worker.items, moving);
      PullsStayPlain(y.box, UpsertEach(y.box, y.worker.folder, y.worker.items, moving), y.worker.folder,
        y.worker.items);
    case _ =>
  }

  lemma {:induction false} RunStaysPlain(y: System, steps: seq<Step>)
    requires PlainSystem(y) && ValidRun(y, steps) && forall step :: step in steps ==> PlainStep(step)
    ensures PlainSystem(RunSteps(y, steps))
    decreases |steps|
  {
    if steps != [] {
      assert steps[0] in steps && forall s :: s in steps[1..] ==> s in steps;
      StepStaysPlain(y, steps[0]);
      RunStaysPlain(Apply(y, steps[0]), steps[1..]);
    }
  }

  /** The folders a choice recounts are those in which it changed a message. */
  lemma {:induction false} RecountedFolders(box: Box, keys: seq<RawKey>, seen: bool, k: Key)
    requires QueueEach(box, keys, seen).Queued? && k.folder !in QueueEach(box, keys, seen).folders
    ensures SameAt(box, QueueEach(box, keys, seen).box, k)
    decreases |keys|
  {
    if keys != [] {
      var j := ParseKey(keys[0]).value;
      RecountedFolders(if Seen(box.messages[j]) == seen then box else Toggle(box, j, seen), keys[1..], seen, k);
    }
  }

  ghost predicate CountRight(box: Box, folder: string) {
    folder in box.unread ==> box.unread[folder] == |Unseen(box.messages, folder)|
  }

  lemma SameUnseen(box: Box, keys: seq<RawKey>, seen: bool, folder: string)
    requires QueueEach(box, keys, seen).Queued? && folder !in QueueEach(box, keys, seen).folders
    ensures Unseen(QueueEach(box, keys, seen).box.messages, folder) == Unseen(box.messages, folder)
  {
    var z := QueueEach(box, keys, seen).box;
    forall k: Key | k.folder == folder ensures k in Unseen(z.messages, folder) <==> k in Unseen(box.messages, folder) {
      RecountedFolders(box, keys, seen, k);
    }
  }

  /** A choice recounts the folders it changes, and leaves the others with the messages and the count they had. */
  lemma ChoiceKeepsCounts(box: Box, keys: seq<RawKey>, seen: bool, folder: string)
    requires AllPlain(box.messages) && QueueEach(box, keys, seen).Queued?
    ensures var z := QueueSeen(box, keys, seen).0;
      folder in QueueEach(box, keys, seen).folders || CountRight(box, folder) ==> CountRight(z, folder)
  {
    var r := QueueEach(box, keys, seen);
    ChoicesStayPlain(box, keys, seen);
    if folder in r.folders {
      PlainCountIsRight(r.box.messages, folder);
    } else {
      SameUnseen(box, keys, seen, folder);
      SameUnread(box, keys, seen);
    }
  }

  lemma {:induction false} SameUnread(box: Box, keys: seq<RawKey>, seen: bool)
    requires QueueEach(box, keys, seen).Queued?
    ensures QueueEach(box, keys, seen).box.unread == box.unread
    decreases |keys|
  {
    if keys != [] {
      var j := ParseKey(keys[0]).value;
      SameUnread(if Seen(box.messages[j]) == seen then box else Toggle(box, j, seen), keys[1..], seen);
    }
  }

  /**
   While mail arrives with plain flags, after any run: an accepted choice leaves a right unread
   count in every folder it changes and in every folder whose count was right; and so does
   UpdateFolderStats in its folder.
   */
  lemma UnreadCountsAreRight(y: System, steps: seq<Step>, keys: seq<RawKey>, seen: bool, folder: string)
    requires Start(y) && AllPlain(y.server) && ValidRun(y, steps) && forall step :: step in steps ==> PlainStep(step)
    requires QueueEach(RunSteps(y, steps).box, keys, seen).Queued?
    ensures var z := RunSteps(y, steps);
      && (folder in QueueEach(z.box, keys, seen).folders || CountRight(z.box, folder) ==>
            CountRight(Apply(z, Choose(keys, seen)).box, folder))
      && CountRight(Apply(z, Stats(folder)).box, folder)
  {
    RunStaysPlain(y, steps);
    var z := RunSteps(y, steps);
    ChoiceKeepsCounts(z.box, keys, seen, folder);
    PlainCountIsRight(z.box.messages, folder);
  }

  lemma SyncOne(box: Box, k: Key, flags: Flags)
    requires k in box.messages && k !in box.pending && box.messages[k] != flags
    ensures SyncEach(box, k.folder, [Item(k.uid, flags)]) == (box.(messages := box.messages[k := flags]), 1)
  {
    var items := [Item(k.uid, flags)];
    assert items[1..] == [];
    assert Key(k.folder, items[0].uid) == k;
  }

  lemma QueueOne(box: Box, raw: RawKey, k: Key, seen: bool)
    requires ParseKey(raw) == Some(k) && k in box.messages && Seen(box.messages[k]) != seen
    ensures QueueSeen(box, [raw], seen).0 == Recount(Toggle(box, k, seen), {k.folder})
    ensures QueueSeen(box, [raw], seen).1.Queued?
  {
    assert [raw][1..] == [];
    assert QueueEach(Toggle(box, k, seen), [], seen) == Queued(Toggle(box, k, seen), 0, {});
  }

  const FIRST := Key("INBOX", 1)
  const SECOND := Key("INBOX", 2)
  const ODD: Flags := ["\\SEEN"]
  const TWO_UNREAD := Box(map[FIRST := [], SECOND := []], map[], map["INBOX" := 2])

  lemma OddIsNotCounted()
    ensures Seen(ODD) && !MentionsSeen(ODD)
  {
    assert EqualFold(ODD[0], SEEN);
    assert ODD[0][2] != SEEN[2];
    ShorterHoldsNothing(ODD[0][1..], SEEN);
  }

  /**
   Two unread messages: a flag sync stores the first as read in another spelling, and the user
   marks the second. No message is unread, but the count says one.
   */
  lemma UnreadCountExample(raw: RawKey)
    requires ParseKey(raw) == Some(SECOND)
    ensures var synced := SyncEach(TWO_UNREAD, "INBOX", [Item(1, ODD)]).0;
      var z := QueueSeen(synced, [raw], true);
      z.1.Queued? && Unseen(z.0.messages, "INBOX") == {} && z.0.unread == map["INBOX" := 1]
  {
    SyncOne(TWO_UNREAD, FIRST, ODD);
    var synced := TWO_UNREAD.(messages := TWO_UNREAD.messages[FIRST := ODD]);
    OddIsNotCounted();
    assert !Seen([]);
    QueueOne(synced, raw, SECOND, true);
    StateIsSet([], SEEN, true);
    MarkedIsCounted([]);
    CountOfTwo(Toggle(synced, SECOND, true).messages);
  }

  lemma CountOfTwo(messages: map<Key, Flags>)
    requires messages.Keys == {FIRST, SECOND}
    requires Seen(messages[FIRST]) && !MentionsSeen(messages[FIRST]) && Seen(messages[SECOND])
    requires MentionsSeen(messages[SECOND])
    ensures Unseen(messages, "INBOX") == {} && UnreadIn(messages, "INBOX") == 1
  {
    assert (set k | k in messages && k.folder == "INBOX" && !MentionsSeen(messages[k])) == {FIRST};
  }

  lemma {:induction false} ShorterHoldsNothing(text: string, part: string)
    requires |text| < |part|
    ensures !Within(text, part)
  {
    if text != "" { ShorterHoldsNothing(text[1..], part); }
  }
}
