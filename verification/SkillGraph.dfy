/**
 Skills that depend on one another: what a resolvable skill and a valid registry are,
 and the two depth-first searches that decide it. Instruction texts are byte strings.
 */
module SkillGraph {
  import opened Wrappers
  import opened Strings

  const LIMIT := 24000
  const MAX_SKILLS := 64
  const CHAT := "chat"
  const MAIL_SUMMARY := "mail_summary"

  datatype Skill = Skill(id: string, name: string, description: string, instructions: string, kind: string,
                         deps: seq<string>, enabled: bool, builtIn: bool, revision: nat)

  type Graph = map<string, Skill>

  predicate Edge(g: Graph, a: string, b: string) { a in g && b in g[a].deps }

  /** A chain of dependencies; only its last name may be missing from the registry. */
  ghost predicate Path(g: Graph, p: seq<string>) {
    p != [] && forall i :: 0 <= i < |p| - 1 ==> Edge(g, p[i], p[i + 1])
  }

  ghost predicate PathFrom(g: Graph, p: seq<string>, a: string, b: string) {
    Path(g, p) && p[0] == a && p[|p| - 1] == b
  }

  ghost predicate Reach(g: Graph, a: string, b: string) {
    exists p :: PathFrom(g, p, a, b)
  }

  ghost predicate Cycle(g: Graph, x: string) {
    exists p :: PathFrom(g, p, x, x) && |p| > 1
  }

  predicate Good(g: Graph, kind: string, x: string) {
    x in g && g[x].enabled && g[x].kind == kind
  }

  ghost function Reachable(g: Graph, root: string): set<string> {
    set x | x in g && Reach(g, root, x)
  }

  function Block(s: Skill): string {
    "\nSkill " + s.id + " (revision " + Decimal(s.revision) + "):\n" + s.instructions + "\n"
  }

  function Text(g: Graph, order: seq<string>): string
    requires forall x :: x in order ==> x in g
  {
    if order == [] then "" else Text(g, order[..|order| - 1]) + Block(g[order[|order| - 1]])
  }

  /** The length of the blocks of a set of skills. */
  ghost function Total(g: Graph, s: set<string>): nat
    requires s <= g.Keys
  {
    if s == {} then 0 else
      var x :| x in s;
      |Block(g[x])| + Total(g, s - {x})
  }

  /** What resolution must decide: everything reachable is usable, acyclic, and short enough together. */
  ghost predicate Resolvable(g: Graph, kind: string, root: string) {
    && (forall x :: Reach(g, root, x) ==> Good(g, kind, x) && !Cycle(g, x))
    && Total(g, Reachable(g, root)) <= LIMIT
  }

  /** Each skill once, after everything it depends on. */
  ghost predicate Topological(g: Graph, order: seq<string>) {
    && (forall i :: 0 <= i < |order| ==> order[i] in g)
    && (forall i, j :: 0 <= i < j < |order| ==> order[i] != order[j])
    && forall i, d :: 0 <= i < |order| && d in g[order[i]].deps ==> d in order[..i]
  }

  // ------------------------------------------------------------------- paths

  lemma ReachSelf(g: Graph, x: string)
    ensures Reach(g, x, x)
  {
    assert PathFrom(g, [x], x, x);
  }

  /** Along a chain the place in a topological order only gets smaller. */
  lemma {:induction false} PathDescends(g: Graph, order: seq<string>, i: nat, p: seq<string>)
    requires Topological(g, order) && i < |order| && Path(g, p) && p[0] == order[i] && |p| > 1
    ensures p[|p| - 1] in order[..i]
    decreases |p|
  {
    assert Edge(g, p[0], p[1]);
    if |p| > 2 {
      var j :| 0 <= j < i && order[j] == p[1];
      forall k | 0 <= k < |p[1..]| - 1 ensures Edge(g, p[1..][k], p[1..][k + 1]) {
        assert Edge(g, p[k + 1], p[k + 2]);
      }
      PathDescends(g, order, j, p[1..]);
    }
  }

  lemma OrderIsClosed(g: Graph, order: seq<string>, root: string, x: string)
    requires Topological(g, order) && root in order && Reach(g, root, x)
    ensures x in order && !Cycle(g, x)
  {
    var p :| PathFrom(g, p, root, x);
    var i :| 0 <= i < |order| && order[i] == root;
    if |p| > 1 { PathDescends(g, order, i, p); }
    if Cycle(g, x) {
      var c :| PathFrom(g, c, x, x) && |c| > 1;
      var j :| 0 <= j < |order| && order[j] == x;
      PathDescends(g, order, j, c);
    }
  }

  /** The end of a chain that already passed through its last name closes a cycle there. */
  lemma ChainClosesCycle(g: Graph, stack: seq<string>, id: string)
    requires Path(g, stack + [id]) && id in stack
    ensures Cycle(g, id) && Reach(g, (stack + [id])[0], id)
  {
    var j :| 0 <= j < |stack| && stack[j] == id;
    var p := (stack + [id])[j..];
    forall k | 0 <= k < |p| - 1 ensures Edge(g, p[k], p[k + 1]) {
      assert Edge(g, (stack + [id])[j + k], (stack + [id])[j + k + 1]);
    }
    assert PathFrom(g, p, id, id) && |p| > 1;
    assert PathFrom(g, stack + [id], (stack + [id])[0], id);
  }

  lemma ChainGrows(g: Graph, stack: seq<string>, id: string, dep: string)
    requires Path(g, stack + [id]) && Edge(g, id, dep)
    ensures Path(g, (stack + [id]) + [dep])
  {
    var p := stack + [id];
    forall k | 0 <= k < |p + [dep]| - 1 ensures Edge(g, (p + [dep])[k], (p + [dep])[k + 1]) {
      if k < |p| - 1 { assert Edge(g, p[k], p[k + 1]); }
    }
  }

  // ------------------------------------------------------------------ lengths

  lemma {:induction false} TotalAdd(g: Graph, s: set<string>, x: string)
    requires s <= g.Keys && x in g && x !in s
    ensures Total(g, s + {x}) == Total(g, s) + |Block(g[x])|
    decreases s
  {
    var t := s + {x};
    var y :| y in t && Total(g, t) == |Block(g[y])| + Total(g, t - {y});
    if y == x {
      assert t - {x} == s;
    } else {
      TotalAdd(g, s - {y}, x);
      TotalAdd(g, s - {y}, y);
      assert s - {y} + {x} == t - {y} && s - {y} + {y} == s;
    }
  }

  lemma {:induction false} TotalGrows(g: Graph, a: set<string>, b: set<string>)
    requires a <= b <= g.Keys
    ensures Total(g, a) <= Total(g, b)
    decreases b - a
  {
    if a != b {
      assert b == a + (b - a);
      var x :| x in b - a;
      TotalAdd(g, a, x);
      TotalGrows(g, a + {x}, b);
    }
  }

  function Names(order: seq<string>): set<string> { set x | x in order }

  lemma {:induction false} TextLength(g: Graph, order: seq<string>)
    requires forall x :: x in order ==> x in g
    requires forall i, j :: 0 <= i < j < |order| ==> order[i] != order[j]
    ensures |Text(g, order)| == Total(g, Names(order))
  {
    if order != [] {
      var n := |order| - 1;
      TextLength(g, order[..n]);
      assert Names(order) == Names(order[..n]) + {order[n]};
      TotalAdd(g, Names(order[..n]), order[n]);
    }
  }

  /**
   A topological order that contains the root, holds only what the root reaches and is short
   enough decides the question.
   */
  lemma OrderResolves(g: Graph, kind: string, order: seq<string>, root: string)
    requires Topological(g, order) && root in order
    requires forall x :: x in order ==> Good(g, kind, x) && Reach(g, root, x)
    ensures Names(order) == Reachable(g, root)
    ensures Resolvable(g, kind, root) <==> |Text(g, order)| <= LIMIT
  {
    forall x | Reach(g, root, x) ensures x in order && !Cycle(g, x) {
      OrderIsClosed(g, order, root, x);
    }
    assert Names(order) == Reachable(g, root);
    TextLength(g, order);
  }

  lemma TooLong(g: Graph, kind: string, order: seq<string>, root: string)
    requires Topological(g, order) && forall x :: x in order ==> Reach(g, root, x)
    requires |Text(g, order)| > LIMIT
    ensures !Resolvable(g, kind, root)
  {
    TextLength(g, order);
    TotalGrows(g, Names(order), Reachable(g, root));
  }

  lemma TopologicalAppend(g: Graph, order: seq<string>, id: string)
    requires Topological(g, order) && id in g && id !in order && forall d :: d in g[id].deps ==> d in order
    ensures Topological(g, order + [id])
    ensures Text(g, order + [id]) == Text(g, order) + Block(g[id])
  {
    var next := order + [id];
    assert next[..|order|] == order;
    forall i, d | 0 <= i < |next| && d in g[next[i]].deps ensures d in next[..i] {
      if i < |order| { assert next[..i] == order[..i]; }
    }
  }

  // --------------------------------------------------------------- resolution

  datatype Error = NotFound | Conflict | Invalid | InUse
  datatype Execution = Execution(id: string, revision: nat, instructions: string, versions: seq<Skill>)
  datatype Resolved = Ok(execution: Execution) | Err(error: Error)

  /** The variables the search closes over; stack and order are the chain being visited and the finished names. */
  class Resolver {
    const g: Graph
    const kind: string
    const root: string
    var visiting: set<string>
    var visited: set<string>
    var text: string
    var versions: seq<Skill>
    ghost var order: seq<string>

    constructor (g: Graph, kind: string, root: string)
      ensures this.g == g && this.kind == kind && this.root == root
      ensures Valid() && visiting == {} && order == []
    {
      this.g, this.kind, this.root := g, kind, root;
      visiting, visited, text, versions, order := {}, {}, "", [], [];
    }

    ghost predicate Valid()
      reads this
    {
      && visited == Names(order) && visited !! visiting
      && Topological(g, order)
      && (forall x :: x in order ==> Good(g, kind, x) && Reach(g, root, x))
      && text == Text(g, order) && |text| <= LIMIT
      && |versions| == |order| && forall i :: 0 <= i < |order| ==> versions[i] == g[order[i]]
    }

    method Add(id: string, ghost stack: seq<string>) returns (ok: bool)
      requires Valid() && visiting == Names(stack) && visiting <= g.Keys
      requires PathFrom(g, stack + [id], root, id)
      modifies this
      ensures ok ==> Valid() && visiting == old(visiting) && old(order) <= order && id in visited
      ensures ok && id !in old(visited) ==> order[|order| - 1] == id
      ensures !ok ==> !Resolvable(g, kind, root)
      decreases |g.Keys - visiting|, 1
    {
      if id in visiting {
        ChainClosesCycle(g, stack, id);
        return false;
      }
      if id in visited { return true; }
      assert Reach(g, root, id);
      if id !in g || !g[id].enabled || g[id].kind != kind { return false; }
      visiting := visiting + {id};
      SmallerRest(g.Keys, old(visiting), id);
      ok := AddAll(id, stack);
      if !ok { return; }
      ok := Finish(id);
    }

    /** The loop over the dependencies of a skill. */
    method AddAll(id: string, ghost stack: seq<string>) returns (ok: bool)
      requires Valid() && visiting == Names(stack) + {id} && visiting <= g.Keys
      requires PathFrom(g, stack + [id], root, id)
      modifies this
      ensures ok ==> Valid() && visiting == old(visiting) && old(order) <= order
      ensures ok ==> forall d :: d in g[id].deps ==> d in visited
      ensures !ok ==> !Resolvable(g, kind, root)
      decreases |g.Keys - visiting|, 2
    {
      var deps := g[id].deps;
      assert Names(stack + [id]) == visiting;
      var i := 0;
      while i < |deps|
        invariant 0 <= i <= |deps|
        invariant Valid() && visiting == old(visiting) && old(order) <= order
        invariant forall d :: d in deps[..i] ==> d in visited
      {
        ChainGrows(g, stack, id, deps[i]);
        assert deps[..i + 1] == deps[..i] + [deps[i]];
        ok := Add(deps[i], stack + [id]);
        if !ok { return; }
        i := i + 1;
      }
      assert deps[..i] == deps;
      return true;
    }

    /** The end of a visit: the skill's text joins the output, unless that grows too long. */
    method Finish(id: string) returns (ok: bool)
      requires Valid() && id in visiting && Good(g, kind, id) && Reach(g, root, id)
      requires forall d :: d in g[id].deps ==> d in visited
      modifies this
      ensures ok ==> Valid() && visiting == old(visiting) - {id} && order == old(order) + [id] && id in visited
      ensures !ok ==> !Resolvable(g, kind, root)
    {
      visiting := visiting - {id};
      visited := visited + {id};
      text := text + Block(g[id]);
      versions := versions + [g[id]];
      TopologicalAppend(g, order, id);
      order := order + [id];
      if |text| > LIMIT {
        TooLong(g, kind, order, root);
        return false;
      }
      return true;
    }
  }

  lemma SmallerRest(all: set<string>, some: set<string>, x: string)
    requires x in all && x !in some
    ensures |all - (some + {x})| < |all - some|
  {
    assert all - some == (all - (some + {x})) + {x};
  }

  /**
   resolveAISkillRecords: succeeds exactly on resolvable skills, and then lists every
   skill the root reaches exactly once, dependencies first, the root last.
   */
  method Resolve(g: Graph, id: string, kind: string) returns (r: Resolved)
    ensures r.Ok? <==> Resolvable(g, kind, id)
    ensures r.Err? ==> r.error == if id in g then Invalid else NotFound
    ensures r.Ok? ==> ResolvedAs(g, id, r.execution)
  {
    if id !in g {
      ReachSelf(g, id);
      return Err(NotFound);
    }
    if g[id].kind != kind || !g[id].enabled {
      ReachSelf(g, id);
      return Err(Invalid);
    }
    var search := new Resolver(g, kind, id);
    ghost var stack: seq<string> := [];
    assert stack + [id] == [id];
    assert PathFrom(g, [id], id, id);
    var ok := search.Add(id, stack);
    if !ok { return Err(Invalid); }
    OrderResolves(g, kind, search.order, id);
    assert ListsAll(g, id, search.order, search.versions);
    return Ok(Execution(id, g[id].revision, search.text, search.versions));
  }

  ghost predicate ListsAll(g: Graph, id: string, order: seq<string>, versions: seq<Skill>) {
    && Topological(g, order) && Names(order) == Reachable(g, id) && order != [] && order[|order| - 1] == id
    && |versions| == |order| && forall i :: 0 <= i < |order| ==> versions[i] == g[order[i]]
  }

  ghost predicate ResolvedAs(g: Graph, id: string, e: Execution) {
    && id in g && e.id == id && e.revision == g[id].revision
    && exists order: seq<string> :: ListsAll(g, id, order, e.versions) && e.instructions == Text(g, order)
  }

  // --------------------------------------------------------------- validation

  /** A dependency is present, of the same kind, and enabled if its dependent is. */
  predicate EdgeOk(g: Graph, x: string, d: string) {
    d in g && (x in g ==> g[d].kind == g[x].kind && (g[x].enabled ==> g[d].enabled))
  }

  predicate EdgesOk(g: Graph, x: string) {
    x in g ==> forall d :: d in g[x].deps ==> EdgeOk(g, x, d)
  }

  ghost predicate Sound(g: Graph) {
    && (forall x :: x in g ==> EdgesOk(g, x))
    && (forall x :: !Cycle(g, x))
  }

  ghost predicate ShortEnough(g: Graph, x: string) {
    x in g && g[x].enabled ==> Total(g, Reachable(g, x)) <= LIMIT
  }

  predicate ActiveOk(g: Graph, active: string) { Good(g, MAIL_SUMMARY, active) }

  /** What validateAISkillGraph must decide. */
  ghost predicate ValidGraph(g: Graph, active: string) {
    |g| <= MAX_SKILLS && Sound(g) && (forall x :: x in g ==> ShortEnough(g, x)) && ActiveOk(g, active)
  }

  lemma {:induction false} SoundPath(g: Graph, p: seq<string>, kind: string)
    requires Sound(g) && Path(g, p) && Good(g, kind, p[0])
    ensures Good(g, kind, p[|p| - 1])
    decreases |p|
  {
    if |p| > 1 {
      assert Edge(g, p[0], p[1]);
      assert EdgesOk(g, p[0]);
      forall k | 0 <= k < |p[1..]| - 1 ensures Edge(g, p[1..][k], p[1..][k + 1]) {
        assert Edge(g, p[k + 1], p[k + 2]);
      }
      SoundPath(g, p[1..], kind);
    }
  }

  /** In a sound registry an enabled skill can fail to resolve only for its length. */
  lemma OnlyLengthCanFail(g: Graph, kind: string, root: string)
    requires Sound(g) && Good(g, kind, root)
    ensures Resolvable(g, kind, root) <==> Total(g, Reachable(g, root)) <= LIMIT
  {
    forall x | Reach(g, root, x) ensures Good(g, kind, x) {
      var p :| PathFrom(g, p, root, x);
      SoundPath(g, p, kind);
    }
  }

  const FRESH := 0
  const ACTIVE := 1
  const DONE := 2

  /** The variables the second search closes over. */
  class Validator {
    const g: Graph
    var state: map<string, int>
    ghost var order: seq<string>

    constructor (g: Graph)
      ensures this.g == g && Valid() && order == [] && Stack({})
    {
      this.g, state, order := g, map[], [];
    }

    function StateOf(x: string): int
      reads this
    {
      if x in state then state[x] else FRESH
    }

    ghost predicate Stack(active: set<string>)
      reads this
    {
      forall x :: StateOf(x) == ACTIVE <==> x in active
    }

    ghost predicate Valid()
      reads this
    {
      && (forall x :: StateOf(x) == DONE <==> x in order)
      && Topological(g, order) && forall x :: x in order ==> EdgesOk(g, x)
    }

    method Visit(id: string, ghost stack: seq<string>) returns (r: Option<Error>)
      requires Valid() && Stack(Names(stack)) && Names(stack) <= g.Keys
      requires id in g && Path(g, stack + [id])
      modifies this
      ensures r.None? ==> Valid() && Stack(Names(stack)) && old(order) <= order && id in order
      ensures r.Some? ==> Unsound(g, r.value)
      decreases |g.Keys - Names(stack)|, 1
    {
      if StateOf(id) == ACTIVE {
        ChainClosesCycle(g, stack, id);
        return Some(Invalid);
      }
      if StateOf(id) == DONE { return None; }
      Enter(id, stack);
      SmallerRest(g.Keys, Names(stack), id);
      r := VisitAll(id, stack);
      if r.None? { Leave(id, stack); }
    }

    method Enter(id: string, ghost stack: seq<string>)
      requires Valid() && Stack(Names(stack)) && StateOf(id) != ACTIVE && StateOf(id) != DONE
      modifies this
      ensures Valid() && Stack(Names(stack + [id])) && order == old(order)
      ensures Names(stack + [id]) == Names(stack) + {id}
    {
      state := state[id := ACTIVE];
      assert Names(stack + [id]) == Names(stack) + {id};
    }

    method Leave(id: string, ghost stack: seq<string>)
      requires Valid() && Stack(Names(stack + [id])) && id !in Names(stack) && id in g
      requires EdgesOk(g, id) && forall d :: d in g[id].deps ==> d in order
      modifies this
      ensures Valid() && Stack(Names(stack)) && order == old(order) + [id]
    {
      assert Names(stack + [id]) == Names(stack) + {id};
      assert StateOf(id) == ACTIVE;
      state := state[id := DONE];
      TopologicalAppend(g, order, id);
      order := order + [id];
    }

    /** The loop over the dependencies of a record. */
    method VisitAll(id: string, ghost stack: seq<string>) returns (r: Option<Error>)
      requires Valid() && Stack(Names(stack + [id])) && Names(stack + [id]) <= g.Keys
      requires Path(g, stack + [id])
      modifies this
      ensures r.None? ==> Valid() && Stack(Names(stack + [id])) && old(order) <= order
      ensures r.None? ==> id in g && EdgesOk(g, id) && forall d :: d in g[id].deps ==> d in order
      ensures r.Some? ==> Unsound(g, r.value)
      decreases |g.Keys - Names(stack + [id])|, 2
    {
      assert id in Names(stack + [id]);
      var deps := g[id].deps;
      var i := 0;
      while i < |deps|
        invariant 0 <= i <= |deps|
        invariant Valid() && Stack(Names(stack + [id])) && old(order) <= order
        invariant forall d :: d in deps[..i] ==> d in order && EdgeOk(g, id, d)
      {
        if deps[i] !in g || g[deps[i]].kind != g[id].kind || (g[id].enabled && !g[deps[i]].enabled) {
          assert deps[i] in g[id].deps && !EdgeOk(g, id, deps[i]);
          return Some(InUse);
        }
        ChainGrows(g, stack, id, deps[i]);
        assert deps[..i + 1] == deps[..i] + [deps[i]];
        r := Visit(deps[i], stack + [id]);
        if r.Some? { return; }
        i := i + 1;
      }
      assert deps[..i] == deps;
      return None;
    }
  }

  /** Once every record is finished, the whole registry is sound. */
  lemma FinishedIsSound(g: Graph, order: seq<string>)
    requires Topological(g, order) && (forall x :: x in order ==> EdgesOk(g, x)) && forall x :: x in g ==> x in order
    ensures Sound(g)
  {
    forall x ensures !Cycle(g, x) {
      if Cycle(g, x) {
        var p :| PathFrom(g, p, x, x) && |p| > 1;
        assert Edge(g, p[0], p[1]);
        ReachSelf(g, x);
        OrderIsClosed(g, order, x, x);
      }
    }
  }

  /** Which fault an error of the second search names: a cycle, or a dependency that is missing, foreign or disabled. */
  ghost predicate Unsound(g: Graph, e: Error) {
    || (e.Invalid? && exists x :: Cycle(g, x))
    || (e.InUse? && exists x :: x in g && !EdgesOk(g, x))
  }

  /** Which fault the error of a refused registry names. */
  ghost predicate GraphError(g: Graph, active: string, e: Error) {
    || Unsound(g, e)
    || (e.Invalid? && (|g| > MAX_SKILLS || exists x :: x in g && !ShortEnough(g, x)))
    || (e.InUse? && !ActiveOk(g, active))
  }

  /**
   validateAISkillGraph: every record is visited, and each enabled one resolved, as soon as it
   is visited. Whether a registry is accepted does not depend on the order of the records; of
   several faults the error names the one met first.
   */
  method Validate(g: Graph, active: string) returns (r: Option<Error>)
    ensures r.None? <==> ValidGraph(g, active)
    ensures r.Some? ==> GraphError(g, active, r.value)
  {
    if |g| > MAX_SKILLS { return Some(Invalid); }
    var search := new Validator(g);
    ghost var stack: seq<string> := [];
    assert Names(stack) == {};
    var rest := g.Keys;
    while rest != {}
      invariant rest <= g.Keys && search.g == g && search.Valid() && search.Stack(Names(stack))
      invariant forall x :: x in g && x !in rest ==> x in search.order && Checked(g, x)
      decreases rest
    {
      var id :| id in rest;
      assert stack + [id] == [id];
      r := search.Visit(id, stack);
      if r.Some? { return; }
      if g[id].enabled {
        var found := Resolve(g, id, g[id].kind);
        if found.Err? {
          OnlyTooLong(g, search.order, id);
          return Some(found.error);
        }
      }
      rest := rest - {id};
    }
    FinishedIsSound(g, search.order);
    AllChecked(g);
    return if active in g && g[active].enabled && g[active].kind == MAIL_SUMMARY then None else Some(InUse);
  }

  lemma {:induction false} FinishedPath(g: Graph, order: seq<string>, p: seq<string>, kind: string)
    requires Topological(g, order) && (forall x :: x in order ==> EdgesOk(g, x))
    requires Path(g, p) && p[0] in order && Good(g, kind, p[0])
    ensures Good(g, kind, p[|p| - 1])
    decreases |p|
  {
    if |p| > 1 {
      assert Edge(g, p[0], p[1]) && EdgesOk(g, p[0]);
      var i :| 0 <= i < |order| && order[i] == p[0];
      assert p[1] in order[..i];
      forall k | 0 <= k < |p[1..]| - 1 ensures Edge(g, p[1..][k], p[1..][k + 1]) {
        assert Edge(g, p[k + 1], p[k + 2]);
      }
      FinishedPath(g, order, p[1..], kind);
    }
  }

  /** A finished, enabled record can fail to resolve only for its length. */
  lemma OnlyTooLong(g: Graph, order: seq<string>, x: string)
    requires Topological(g, order) && (forall y :: y in order ==> EdgesOk(g, y)) && x in order
    requires g[x].enabled && !Resolvable(g, g[x].kind, x)
    ensures !ShortEnough(g, x)
  {
    forall y | Reach(g, x, y) ensures Good(g, g[x].kind, y) && !Cycle(g, y) {
      OrderIsClosed(g, order, x, y);
      var p :| PathFrom(g, p, x, y);
      FinishedPath(g, order, p, g[x].kind);
    }
  }

  ghost predicate Checked(g: Graph, x: string) {
    x in g && g[x].enabled ==> Resolvable(g, g[x].kind, x)
  }

  lemma AllChecked(g: Graph)
    requires forall x :: x in g ==> Checked(g, x)
    ensures forall x :: x in g ==> ShortEnough(g, x)
  {
    forall x | x in g ensures ShortEnough(g, x) { assert Checked(g, x); }
  }

  /** A valid registry always has a usable summary skill. */
  lemma ActiveResolves(g: Graph, active: string)
    requires ValidGraph(g, active)
    ensures Resolvable(g, MAIL_SUMMARY, active)
  {
    OnlyLengthCanFail(g, MAIL_SUMMARY, active);
    assert ShortEnough(g, active);
  }
}
