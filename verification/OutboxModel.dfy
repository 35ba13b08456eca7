/**
 Outgoing mail: records move between statuses, and only a queued record is ever
 submitted. The history beside the table counts who put a record into the queue.
 */
module OutboxModel {
  type Id = string

  datatype Status = Queued | Sending | Failed | Unknown | Sent | Superseded
  datatype Record = Record(account: Id, key: string, status: Status, error: string, created: int,
                           payload: bool, attempts: nat, messageId: string, message: string)
  type Table = map<Id, Record>

  /** A composed message is queued; an import starts failed or unknown and waits for the user. */
  datatype Origin = Composed | ImportedFailed | ImportedUnknown

  datatype Draft = Draft(account: Id, key: string, origin: Origin, error: string, payload: bool,
                         messageId: string, message: string, replacing: Id)

  function StartStatus(o: Origin): Status {
    match o case Composed => Queued case ImportedFailed => Failed case ImportedUnknown => Unknown
  }

  predicate HasKey(t: Table, account: Id, key: string, id: Id) {
    id in t && t[id].account == account && t[id].key == key
  }

  predicate Retriable(t: Table, account: Id, id: Id) {
    id in t && t[id].account == account && (t[id].status.Failed? || t[id].status.Unknown?)
  }

  datatype Created = Existing(id: Id) | Inserted(id: Id) | Busy

  function KeyOf(d: Draft, id: Id): string { if d.key == "" then id else d.key }

  /**
   A known client key returns the old record; a replacement must supersede a failed or unknown
   one, or nothing happens.
   */
  ghost function Create(t: Table, d: Draft, id: Id, now: int): (Table, Created) {
    var key := KeyOf(d, id);
    if exists e :: HasKey(t, d.account, key, e) then
      var e :| HasKey(t, d.account, key, e);
      (t, Existing(e))
    else
      var n := t[id :=
        Record(d.account, key, StartStatus(d.origin), d.error, now, d.payload, 0, d.messageId, d.message)];
      if d.replacing == "" then (n, Inserted(id))
      else if Retriable(n, d.account, d.replacing) then
        (n[d.replacing := n[d.replacing].(status := Superseded)], Inserted(id))
      else (t, Busy)
  }

  /** ClaimOutgoing takes one of the oldest queued records, of any account. */
  predicate Claimable(t: Table, id: Id) {
    && id in t && t[id].status.Queued?
    && forall e :: e in t && t[e].status.Queued? ==> t[id].created <= t[e].created
  }

  function Claim(t: Table, id: Id): Table
    requires id in t
  {
    t[id := t[id].(status := Sending, error := "", attempts := t[id].attempts + 1)]
  }

  predicate IsResult(s: Status) { s.Failed? || s.Unknown? || s.Sent? }

  datatype Outcome = Done | NotFound | Refused | InvalidResult

  /** The stored message gets its send date when the server took it. */
  function Finish(t: Table, account: Id, id: Id, status: Status, error: string, stamped: string): (Table, Outcome) {
    if !IsResult(status) then (t, InvalidResult)
    else if id !in t || t[id].account != account then (t, NotFound)
    else if !t[id].status.Sending? then (t, Refused)
    else
      var message := if status.Sent? then stamped else t[id].message;
      (t[id := t[id].(status := status, error := error, message := message)], Done)
  }

  // ---------------------------------------------------------- mirrored copies

  predicate IsHex(c: char) { '0' <= c <= '9' || 'a' <= c <= 'f' || 'A' <= c <= 'F' }

  /** Sixteen hex digits and a plus sign after the opening bracket. */
  predicate Prefixed(m: string) {
    |m| >= 18 && m[0] == '<' && m[17] == '+' && forall i :: 1 <= i < 17 ==> IsHex(m[i])
  }

  /** outgoingMirrorMatch: the stored copy m belongs to the outgoing id o. */
  predicate SqlMatch(tencent: bool, m: string, o: string) {
    m == o || (tencent && o != "" && o[0] == '<' && |m| == |o| + 17 && Prefixed(m) && m[18..] == o[1..])
  }

  /** The bytes of a character in UTF-8. */
  function CharBytes(c: char): nat {
    if c as int < 0x80 then 1 else if c as int < 0x800 then 2 else if c as int < 0x1_0000 then 3 else 4
  }

  /** len of a string in the source counts bytes, while SQL counts characters. */
  function Bytes(s: string): nat {
    if s == "" then 0 else CharBytes(s[0]) + Bytes(s[1..])
  }

  lemma {:induction false} BytesAtLeast(s: string)
    ensures Bytes(s) >= |s|
  {
    if s != "" { BytesAtLeast(s[1..]); }
  }

  lemma {:induction false} BytesAppend(a: string, b: string)
    ensures Bytes(a + b) == Bytes(a) + Bytes(b)
  {
    if a == "" {
      assert a + b == b;
    } else {
      assert (a + b)[1..] == a[1..] + b;
      BytesAppend(a[1..], b);
    }
  }

  lemma {:induction false} AsciiBytes(s: string)
    requires forall i :: 0 <= i < |s| ==> s[i] as int < 0x80
    ensures Bytes(s) == |s|
  {
    if s != "" { AsciiBytes(s[1..]); }
  }

  /** The prefix is ASCII, so a prefixed id is eighteen bytes longer than what follows. */
  lemma PrefixBytes(m: string)
    requires Prefixed(m)
    ensures Bytes(m) == 18 + Bytes(m[18..])
  {
    AsciiBytes(m[..18]);
    BytesAppend(m[..18], m[18..]);
    assert m[..18] + m[18..] == m;
  }

  /** The outgoing id a stored copy stands for, by the rule of the thread lookup. */
  function MirrorId(tencent: bool, m: string): string {
    if !tencent || Bytes(m) < 20 || !Prefixed(m) then m else "<" + m[18..]
  }

  ghost predicate RulesAgree(tencent: bool, o: string) {
    forall m: string :: SqlMatch(tencent, m, o) <==> MirrorId(tencent, m) == o
  }

  /** A prefix as the provider writes it. */
  function ZeroPrefix(): string {
    seq(18, i => if i == 0 then '<' else if i == 17 then '+' else '0')
  }

  lemma ZeroPrefixed(rest: string)
    ensures Prefixed(ZeroPrefix() + rest) && (ZeroPrefix() + rest)[18..] == rest
  {}

  lemma ShortIdsDiffer(o: string)
    requires o != "" && o[0] == '<' && Bytes(o) <= 2
    ensures !RulesAgree(true, o)
  {
    var m := ZeroPrefix() + o[1..];
    ZeroPrefixed(o[1..]);
    PrefixBytes(m);
    assert Bytes(o) == 1 + Bytes(o[1..]);
    assert SqlMatch(true, m, o) && MirrorId(true, m) == m != o;
  }

  lemma PrefixedIdsDiffer(o: string)
    requires Prefixed(o) && Bytes(o) >= 20
    ensures !RulesAgree(true, o)
  {
    assert SqlMatch(true, o, o) && |MirrorId(true, o)| == |o| - 17;
  }

  lemma OtherIdsAgree(o: string, m: string)
    requires !(o != "" && o[0] == '<' && (Bytes(o) <= 2 || (Bytes(o) >= 20 && Prefixed(o))))
    ensures SqlMatch(true, m, o) <==> MirrorId(true, m) == o
  {
    if Prefixed(m) {
      PrefixBytes(m);
      var stripped := "<" + m[18..];
      assert stripped[1..] == m[18..];
      if o != "" && o[0] == '<' && m[18..] == o[1..] {
        assert o == stripped;
        assert Bytes(o) == 1 + Bytes(m[18..]);
      }
    }
  }

  /**
   The thread lookup applies the rule of the SQL deduplication to every stored copy,
   except for ids of one or two bytes and ids that already look prefixed.
   */
  lemma MirrorRules(tencent: bool, o: string)
    ensures RulesAgree(tencent, o) <==>
      !(tencent && o != "" && o[0] == '<' && (Bytes(o) <= 2 || (Bytes(o) >= 20 && Prefixed(o))))
  {
    if tencent && o != "" && o[0] == '<' && Bytes(o) <= 2 {
      ShortIdsDiffer(o);
    } else if tencent && Bytes(o) >= 20 && Prefixed(o) {
      PrefixedIdsDiffer(o);
    } else {
      forall m: string ensures SqlMatch(tencent, m, o) <==> MirrorId(tencent, m) == o {
        if tencent { OtherIdsAgree(o, m); }
      }
    }
  }

  ghost predicate Mirrored(tencent: bool, copies: set<string>, o: string) {
    exists m :: m in copies && SqlMatch(tencent, m, o)
  }

  /** Only a record with a payload and without a copy in the Sent folder goes back into the queue. */
  ghost function Retry(t: Table, account: Id, id: Id, tencent: bool, copies: set<string>): (Table, Outcome) {
    if Retriable(t, account, id) && t[id].payload && !Mirrored(tencent, copies, t[id].messageId)
    then (t[id := t[id].(status := Queued, error := "")], Done)
    else (t, Refused)
  }

  function Delete(t: Table, account: Id, id: Id): (Table, Outcome) {
    if id in t && t[id].account == account && !t[id].status.Sending? then (t - {id}, Done) else (t, Refused)
  }

  const RESTARTED := "Server restarted before the send result was recorded"

  function Recover(t: Table): Table {
    map id | id in t :: if t[id].status.Sending? then t[id].(status := Unknown, error := RESTARTED) else t[id]
  }

  // -------------------------------------------------------------------- runs

  /**
   queuedAs: how often a creation or an explicit retry queued the record; replaced: old and
   new id of each replacement.
   */
  datatype System = System(table: Table, issued: set<Id>, queuedAs: map<Id, nat>, claims: map<Id, nat>,
    replaced: seq<(Id, Id)>)

  datatype Step =
    | CreateStep(draft: Draft, id: Id, now: int)
    | ClaimStep(id: Id)
    | FinishStep(account: Id, id: Id, status: Status, error: string, stamped: string)
    | RetryStep(account: Id, id: Id, tencent: bool, copies: set<string>)
    | DeleteStep(account: Id, id: Id)
    | RecoverStep

  predicate Enabled(y: System, step: Step) {
    match step
    case CreateStep(d, id, _) => id !in y.issued && id != "" && d.replacing != id
    case ClaimStep(id) => Claimable(y.table, id)
    case _ => true
  }

  function Count(m: map<Id, nat>, id: Id): nat { if id in m then m[id] else 0 }

  ghost function Apply(y: System, step: Step): System
    requires Enabled(y, step)
  {
    match step
    case CreateStep(d, id, now) =>
      var r := Create(y.table, d, id, now);
      if !r.1.Inserted? then y
      else y.(table := r.0, issued := y.issued + {id},
              queuedAs := y.queuedAs[id := if d.origin.Composed? then 1 else 0],
              claims := y.claims[id := 0],
              replaced := if d.replacing == "" then y.replaced else y.replaced + [(d.replacing, id)])
    case ClaimStep(id) => y.(table := Claim(y.table, id), claims := y.claims[id := Count(y.claims, id) + 1])
    case FinishStep(a, id, s, e, m) => y.(table := Finish(y.table, a, id, s, e, m).0)
    case RetryStep(a, id, t, c) =>
      var r := Retry(y.table, a, id, t, c);
      y.(table := r.0, queuedAs := if r.1.Done? then y.queuedAs[id := Count(y.queuedAs, id) + 1] else y.queuedAs)
    case DeleteStep(a, id) => y.(table := Delete(y.table, a, id).0)
    case RecoverStep => y.(table := Recover(y.table))
  }

  ghost predicate ValidRun(y: System, steps: seq<Step>)
    decreases |steps|
  {
    steps == [] || (Enabled(y, steps[0]) && ValidRun(Apply(y, steps[0]), steps[1..]))
  }

  ghost function RunSteps(y: System, steps: seq<Step>): System
    requires ValidRun(y, steps)
    decreases |steps|
  {
    if steps == [] then y else RunSteps(Apply(y, steps[0]), steps[1..])
  }

  predicate InQueue(t: Table, id: Id) { id in t && t[id].status.Queued? }

  /** Every claim used up one entry into the queue; a queued record has one entry left. */
  predicate PaidAt(t: Table, queuedAs: map<Id, nat>, claims: map<Id, nat>, id: Id) {
    id in t ==>
      t[id].attempts == Count(claims, id)
        && Count(claims, id) + (if InQueue(t, id) then 1 else 0) == Count(queuedAs, id)
  }

  ghost predicate Paid(t: Table, queuedAs: map<Id, nat>, claims: map<Id, nat>) {
    forall id :: id in t ==> PaidAt(t, queuedAs, claims, id)
  }

  ghost predicate KeysUnique(t: Table) {
    forall a, b :: a in t && b in t && t[a].account == t[b].account && t[a].key == t[b].key ==> a == b
  }

  /** Each record was replaced at most once, and stays superseded while it exists. */
  ghost predicate ReplacedOnce(t: Table, issued: set<Id>, replaced: seq<(Id, Id)>) {
    && (forall i, j :: 0 <= i < j < |replaced| ==> replaced[i].0 != replaced[j].0)
    && forall i :: 0 <= i < |replaced| ==>
         replaced[i].0 in issued && (replaced[i].0 in t ==> t[replaced[i].0].status.Superseded?)
  }

  ghost predicate Ok(y: System) {
    && y.table.Keys <= y.issued && Paid(y.table, y.queuedAs, y.claims)
    && KeysUnique(y.table) && ReplacedOnce(y.table, y.issued, y.replaced)
  }

  // ------------------------------------------------- what a step does to one record

  /** Account and key never change, and nothing leaves the two settled states. */
  predicate Evolves(a: Record, b: Record) {
    && b.account == a.account && b.key == a.key
    && (a.status.Sent? ==> b.status.Sent?) && (a.status.Superseded? ==> b.status.Superseded?)
  }

  lemma CreateEffect(t: Table, d: Draft, id: Id, now: int)
    requires id !in t && d.replacing != id
    ensures var r := Create(t, d, id, now);
      if r.1.Inserted? then
        && (forall e :: !HasKey(t, d.account, KeyOf(d, id), e))
        && r.0 == (if d.replacing == "" then t else t[d.replacing := t[d.replacing].(status := Superseded)])
                  [id := Record(d.account, KeyOf(d, id), StartStatus(d.origin), d.error, now, d.payload, 0,
                    d.messageId, d.message)]
        && (d.replacing != "" ==> Retriable(t, d.account, d.replacing))
      else r.0 == t
  {}

  /** A step seen from one record: whether it enters the queue, and what its counts become. */
  ghost predicate StepSeenFrom(y: System, step: Step, e: Id)
    requires Enabled(y, step)
  {
    var z := Apply(y, step);
    && (e in z.table && e in y.table ==> Evolves(y.table[e], z.table[e]))
    && (e in z.table && e !in y.table ==> step.CreateStep? && e == step.id && e !in y.issued)
    && (e in z.table && (e in y.table ==> PaidAt(y.table, y.queuedAs, y.claims, e)) ==>
         PaidAt(z.table, z.queuedAs, z.claims, e))
    && (e in y.issued ==> Count(z.claims, e) == Count(y.claims, e) || step == ClaimStep(e))
    && (e in y.issued && InQueue(z.table, e) ==> InQueue(y.table, e) || (step.RetryStep? && step.id == e))
  }

  lemma CreateAt(y: System, d: Draft, id: Id, now: int, e: Id)
    requires Enabled(y, CreateStep(d, id, now)) && y.table.Keys <= y.issued
    ensures StepSeenFrom(y, CreateStep(d, id, now), e)
  {
    CreateEffect(y.table, d, id, now);
  }

  lemma FinishAt(y: System, account: Id, id: Id, status: Status, error: string, stamped: string, e: Id)
    requires y.table.Keys <= y.issued
    ensures StepSeenFrom(y, FinishStep(account, id, status, error, stamped), e)
  {}

  lemma RetryAt(y: System, account: Id, id: Id, tencent: bool, copies: set<string>, e: Id)
    requires y.table.Keys <= y.issued
    ensures StepSeenFrom(y, RetryStep(account, id, tencent, copies), e)
  {}

  lemma ClaimAt(y: System, id: Id, e: Id)
    requires y.table.Keys <= y.issued && Claimable(y.table, id)
    ensures StepSeenFrom(y, ClaimStep(id), e)
  {}

  lemma StepAt(y: System, step: Step, e: Id)
    requires Enabled(y, step) && y.table.Keys <= y.issued
    ensures StepSeenFrom(y, step, e)
  {
    match step
    case CreateStep(d, id, now) => CreateAt(y, d, id, now, e);
    case ClaimStep(id) => ClaimAt(y, id, e);
    case FinishStep(a, id, status, error, stamped) => FinishAt(y, a, id, status, error, stamped, e);
    case RetryStep(a, id, tencent, copies) => RetryAt(y, a, id, tencent, copies, e);
    case DeleteStep(_, _) =>
    case RecoverStep =>
  }

  lemma StepTable(y: System, step: Step)
    requires Enabled(y, step) && y.table.Keys <= y.issued
    ensures Apply(y, step).table.Keys <= Apply(y, step).issued && y.issued <= Apply(y, step).issued
  {
    if step.CreateStep? { CreateEffect(y.table, step.draft, step.id, step.now); }
  }

  /** An inserted record does not share its key with an older one. */
  lemma NewKeyIsNew(t: Table, d: Draft, id: Id, now: int, e: Id)
    requires id !in t && d.replacing != id && Create(t, d, id, now).1.Inserted? && e in t
    ensures var u := Create(t, d, id, now).0;
      e in u && id in u && !(u[e].account == u[id].account && u[e].key == u[id].key)
  {
    CreateEffect(t, d, id, now);
    assert !HasKey(t, d.account, KeyOf(d, id), e);
  }

  lemma StepKeepsKeys(y: System, step: Step)
    requires Ok(y) && Enabled(y, step)
    ensures KeysUnique(Apply(y, step).table)
  {
    var z := Apply(y, step);
    forall a, b | a in z.table && b in z.table && z.table[a].account == z.table[b].account
      && z.table[a].key == z.table[b].key
      ensures a == b
    {
      StepAt(y, step, a);
      StepAt(y, step, b);
      if a != b && (a !in y.table || b !in y.table) {
        NewKeyIsNew(y.table, step.draft, step.id, step.now, if a in y.table then a else b);
      }
    }
  }

  lemma StepKeepsReplaced(y: System, step: Step)
    requires Ok(y) && Enabled(y, step)
    ensures var z := Apply(y, step); ReplacedOnce(z.table, z.issued, z.replaced)
  {
    var z := Apply(y, step);
    StepTable(y, step);
    if step.CreateStep? { CreateEffect(y.table, step.draft, step.id, step.now); }
    forall i | 0 <= i < |y.replaced|
      ensures y.replaced[i].0 in z.table ==> z.table[y.replaced[i].0].status.Superseded?
    {
      StepAt(y, step, y.replaced[i].0);
    }
    if step.CreateStep? && |z.replaced| > |y.replaced| {
      assert forall i :: 0 <= i < |y.replaced| ==> y.replaced[i].0 != step.draft.replacing;
    }
  }

  lemma StepKeeps(y: System, step: Step)
    requires Ok(y) && Enabled(y, step)
    ensures Ok(Apply(y, step))
  {
    StepTable(y, step);
    StepKeepsKeys(y, step);
    StepKeepsReplaced(y, step);
    var z := Apply(y, step);
    forall e | e in z.table ensures PaidAt(z.table, z.queuedAs, z.claims, e) {
      StepAt(y, step, e);
    }
  }

  predicate Start(y: System) {
    y.table == map[] && y.issued == {} && y.replaced == []
  }

  lemma {:induction false} RunKeeps(y: System, steps: seq<Step>)
    requires Ok(y) && ValidRun(y, steps)
    ensures Ok(RunSteps(y, steps))
    decreases |steps|
  {
    if steps != [] {
      StepKeeps(y, steps[0]);
      RunKeeps(Apply(y, steps[0]), steps[1..]);
    }
  }

  /**
   Nothing is sent by itself: over any run a record's attempts equal its claims, and
   each of them was paid for by composing it or by an explicit retry.
   */
  lemma ClaimsArePaid(y: System, steps: seq<Step>)
    requires Start(y) && ValidRun(y, steps)
    ensures var z := RunSteps(y, steps);
      && Paid(z.table, z.queuedAs, z.claims) && KeysUnique(z.table)
      && ReplacedOnce(z.table, z.issued, z.replaced)
  {
    RunKeeps(y, steps);
  }

  /** A step other than an explicit retry of this record leaves it out of the queue, unclaimed. */
  lemma {:induction false} NoRetryNoSend(y: System, steps: seq<Step>, id: Id)
    requires Ok(y) && ValidRun(y, steps) && id in y.issued && !InQueue(y.table, id)
    requires forall s :: s in steps && s.RetryStep? ==> s.id != id
    ensures var z := RunSteps(y, steps);
      && !InQueue(z.table, id) && Count(z.claims, id) == Count(y.claims, id)
    decreases |steps|
  {
    if steps != [] {
      assert steps[0] in steps;
      StepKeeps(y, steps[0]);
      StepAt(y, steps[0], id);
      StepTable(y, steps[0]);
      var z := Apply(y, steps[0]);
      assert !InQueue(z.table, id) && id in z.issued && Count(z.claims, id) == Count(y.claims, id);
      NoRetryNoSend(z, steps[1..], id);
    }
  }

  predicate Settled(t: Table, id: Id) { id in t ==> t[id].status.Sent? || t[id].status.Superseded? }

  /** Sent and superseded records are never claimed again, whatever anyone does. */
  lemma {:induction false} SettledForever(y: System, steps: seq<Step>, id: Id)
    requires Ok(y) && ValidRun(y, steps) && id in y.issued && Settled(y.table, id)
    ensures var z := RunSteps(y, steps); Settled(z.table, id) && Count(z.claims, id) == Count(y.claims, id)
    decreases |steps|
  {
    if steps != [] {
      StepKeeps(y, steps[0]);
      StepAt(y, steps[0], id);
      StepTable(y, steps[0]);
      var z := Apply(y, steps[0]);
      assert Settled(z.table, id) && id in z.issued && Count(z.claims, id) == Count(y.claims, id);
      SettledForever(z, steps[1..], id);
    }
  }

  lemma StaysWithoutDelete(y: System, step: Step, id: Id)
    requires Enabled(y, step) && id in y.table && y.table.Keys <= y.issued && (step.DeleteStep? ==> step.id != id)
    ensures id in Apply(y, step).table
  {
    if step.CreateStep? { CreateEffect(y.table, step.draft, step.id, step.now); }
  }

  /** Until it is deleted, a record answers every creation under its client key. */
  lemma {:induction false} CreateIsIdempotent(y: System, steps: seq<Step>, id: Id, d: Draft, again: Id, now: int)
    requires Ok(y) && ValidRun(y, steps) && d.key != "" && HasKey(y.table, d.account, d.key, id)
    requires forall s :: s in steps && s.DeleteStep? ==> s.id != id
    ensures var z := RunSteps(y, steps); Create(z.table, d, again, now) == (z.table, Existing(id))
    decreases |steps|
  {
    if steps == [] {
      var e :| HasKey(y.table, d.account, d.key, e) && Create(y.table, d, again, now) == (y.table, Existing(e));
    } else {
      assert steps[0] in steps;
      StepKeeps(y, steps[0]);
      StepAt(y, steps[0], id);
      StaysWithoutDelete(y, steps[0], id);
      assert HasKey(Apply(y, steps[0]).table, d.account, d.key, id);
      CreateIsIdempotent(Apply(y, steps[0]), steps[1..], id, d, again, now);
    }
  }

  predicate InFlight(t: Table, id: Id) { id in t && t[id].status.Sending? }

  /** Nothing but a claim puts a record in flight. */
  lemma {:induction false} OnlyClaimsPutInFlight(y: System, steps: seq<Step>, id: Id)
    requires Ok(y) && ValidRun(y, steps) && id in y.issued && !InFlight(y.table, id)
    requires forall s :: s in steps ==> !(s.ClaimStep? && s.id == id)
    ensures !InFlight(RunSteps(y, steps).table, id)
    decreases |steps|
  {
    if steps != [] {
      assert steps[0] in steps;
      StepKeeps(y, steps[0]);
      StepTable(y, steps[0]);
      StepAt(y, steps[0], id);
      NotInFlightAfter(y, steps[0], id);
      OnlyClaimsPutInFlight(Apply(y, steps[0]), steps[1..], id);
    }
  }

  lemma NotInFlightAfter(y: System, step: Step, id: Id)
    requires Enabled(y, step) && y.table.Keys <= y.issued && id in y.issued
    requires !InFlight(y.table, id) && !(step.ClaimStep? && step.id == id)
    ensures !InFlight(Apply(y, step).table, id)
  {
    if step.CreateStep? { CreateEffect(y.table, step.draft, step.id, step.now); }
  }

  /**
   A claim takes one result: once it is recorded, every further result is refused until the
   record is claimed again.
   */
  lemma OneResultPerClaim(y: System, first: Step, steps: seq<Step>, again: Step)
    requires Ok(y) && first.FinishStep? && again.FinishStep? && again.id == first.id
    requires Finish(y.table, first.account, first.id, first.status, first.error, first.stamped).1.Done?
    requires ValidRun(Apply(y, first), steps) && forall s :: s in steps ==> !(s.ClaimStep? && s.id == first.id)
    ensures var z := RunSteps(Apply(y, first), steps).table;
      var r := Finish(z, again.account, again.id, again.status, again.error, again.stamped);
      r.0 == z && !r.1.Done?
  {
    StepKeeps(y, first);
    OnlyClaimsPutInFlight(Apply(y, first), steps, first.id);
  }

  /** What a claim holds is out of everyone's reach: only its own result or a restart touches the record. */
  lemma {:induction false} InFlightRecordIsKept(y: System, steps: seq<Step>, id: Id)
    requires Ok(y) && ValidRun(y, steps) && InFlight(y.table, id)
    requires forall s :: s in steps ==> !s.RecoverStep? && !(s.FinishStep? && s.id == id)
    ensures var z := RunSteps(y, steps).table; id in z && z[id] == y.table[id]
    decreases |steps|
  {
    if steps != [] {
      assert steps[0] in steps;
      StepKeeps(y, steps[0]);
      RecordUntouched(y, steps[0], id);
      InFlightRecordIsKept(Apply(y, steps[0]), steps[1..], id);
    }
  }

  lemma RecordUntouched(y: System, step: Step, id: Id)
    requires Enabled(y, step) && y.table.Keys <= y.issued && InFlight(y.table, id)
    requires !step.RecoverStep? && !(step.FinishStep? && step.id == id)
    ensures id in Apply(y, step).table && Apply(y, step).table[id] == y.table[id]
  {
    if step.CreateStep? { CreateEffect(y.table, step.draft, step.id, step.now); }
  }

  /** So the worker that claimed a record can always record its result, unless the store restarted. */
  lemma ClaimedResultIsRecorded(y: System, steps: seq<Step>, result: Step)
    requires Ok(y) && result.FinishStep? && IsResult(result.status) && ValidRun(y, [ClaimStep(result.id)] + steps)
    requires forall s :: s in steps ==> !s.RecoverStep? && !(s.FinishStep? && s.id == result.id)
    requires result.id in y.table && y.table[result.id].account == result.account
    ensures var z := RunSteps(Apply(y, ClaimStep(result.id)), steps).table;
      var (n, o) := Finish(z, result.account, result.id, result.status, result.error, result.stamped);
      var claimed := y.table[result.id];
      && o.Done? && result.id in n
      && n[result.id] == claimed.(status := result.status, error := result.error, attempts := claimed.attempts + 1,
           message := if result.status.Sent? then result.stamped else claimed.message)
  {
    assert ([ClaimStep(result.id)] + steps)[1..] == steps;
    StepKeeps(y, ClaimStep(result.id));
    InFlightRecordIsKept(Apply(y, ClaimStep(result.id)), steps, result.id);
  }
}
